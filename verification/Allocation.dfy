/**
 Durable allocation records: the lifecycle table, the store of records and of the
 one placement each REE may have, and the manager's ordered effects with their
 compensation.
 */
module Allocation {
  import opened Common

  type AllocationId(==, !new) = nat
  type ReeId(==, !new) = nat
  type BenchId(==, !new) = nat

  datatype State =
    | Requested | Provisioning | WaitingForWorkbench | Ready | Assigned | Draining | Released | Failed | Lost

  /** The transition table. */
  predicate Follows(current: State, target: State) {
    match current
    case Requested => target.Provisioning? || target.WaitingForWorkbench? || target.Draining? || target.Failed?
    case Provisioning => target.WaitingForWorkbench? || target.Draining? || target.Failed? || target.Lost?
    case WaitingForWorkbench => target.Ready? || target.Draining? || target.Failed? || target.Lost?
    case Ready => target.Assigned? || target.Draining? || target.Failed? || target.Lost?
    case Assigned => target.Draining? || target.Failed? || target.Lost?
    case Draining => target.Released? || target.Failed?
    case Released => false
    case Failed => target.Draining?
    case Lost => target.Draining?
  }

  /** The table read by its targets: what may be torn down, what may fail or be lost, and
      the one way each other state is entered. */
  lemma TableByTarget(current: State, target: State)
    ensures Follows(current, target) <==>
              match target
              case Requested => false
              case Provisioning => current.Requested?
              case WaitingForWorkbench => current.Requested? || current.Provisioning?
              case Ready => current.WaitingForWorkbench?
              case Assigned => current.Ready?
              case Draining => !current.Draining? && !current.Released?
              case Released => current.Draining?
              case Failed => !current.Released? && !current.Failed? && !current.Lost?
              case Lost => current.Provisioning? || current.WaitingForWorkbench? || current.Ready? || current.Assigned?
  {
  }

  /** Staying where one is passes the check too. */
  predicate Legal(current: State, target: State) {
    current == target || Follows(current, target)
  }

  datatype Request = Request(id: AllocationId, ree: ReeId, location: string, image: string)

  datatype Record = Record(request: Request, state: State, bench: BenchId, managed: bool, image: string, detail: string)

  datatype Ledger = Ledger(allocations: map<AllocationId, Record>, placements: map<ReeId, AllocationId>)

  predicate CanCreate(l: Ledger, request: Request) {
    request.id !in l.allocations && request.ree !in l.placements
  }

  function Created(l: Ledger, request: Request, bench: BenchId, managed: bool): Ledger
    requires CanCreate(l, request)
  {
    Ledger(l.allocations[request.id := Record(request, Requested, bench, managed, "", "")],
           l.placements[request.ree := request.id])
  }

  predicate CanUpdate(l: Ledger, id: AllocationId, state: State) {
    id in l.allocations && Legal(l.allocations[id].state, state)
  }

  function Updated(l: Ledger, id: AllocationId, state: State, image: Option<string>, detail: Option<string>): Ledger
    requires CanUpdate(l, id, state)
  {
    var r := l.allocations[id];
    l.(allocations := l.allocations[id := r.(state := state,
                                             image := if image.Some? then image.value else r.image,
                                             detail := if detail.Some? then detail.value else r.detail)])
  }

  function Unplaced(l: Ledger, ree: ReeId): Ledger {
    l.(placements := l.placements - {ree})
  }

  /** Every record that is not released is the one its REE's placement names. */
  ghost predicate OneLivePerRee(l: Ledger) {
    forall id | id in l.allocations && !l.allocations[id].state.Released? ::
      l.allocations[id].request.ree in l.placements && l.placements[l.allocations[id].request.ree] == id
  }

  // ---------------------------------------------------------------------
  // What the table implies for whole lives

  /** A record's states, oldest first, each one a legal step from the one before. */
  ghost predicate Life(path: seq<State>) {
    path != [] && path[0] == Requested && forall i | 0 < i < |path| :: Legal(path[i - 1], path[i])
  }

  /** Whatever updates were attempted, a record that is assigned was waiting for
      its workbench first and ready after that. */
  lemma {:induction false} AssignedWasWaitingThenReady(path: seq<State>)
    requires Life(path) && path[|path| - 1] == Assigned
    ensures exists i, j :: 0 < i < j < |path| - 1 && path[i] == WaitingForWorkbench && path[j] == Ready
  {
    var j := LastBefore(path, Assigned);
    var i := LastBefore(path[..j + 1], Ready);
    assert path[j] == Ready && path[i] == WaitingForWorkbench;
  }

  /** The state a record was in before it last entered `at`. */
  lemma {:induction false} LastBefore(path: seq<State>, at: State) returns (k: nat)
    requires Life(path) && path[|path| - 1] == at && at != Requested
    ensures k < |path| - 1 && path[k] != at && Follows(path[k], at)
    ensures at == Assigned ==> path[k] == Ready
    ensures at == Ready ==> path[k] == WaitingForWorkbench
    ensures path[k] != Requested ==> k > 0
  {
    k := |path| - 2;
    if path[k] == at {
      k := LastBefore(path[..|path| - 1], at);
    }
  }

  lemma ReleasedIsFinal(path: seq<State>, i: nat)
    requires Life(path) && i < |path| && path[i] == Released
    ensures path[|path| - 1] == Released
    decreases |path| - i
  {
    if i < |path| - 1 {
      ReleasedIsFinal(path, i + 1);
    }
  }

  // ---------------------------------------------------------------------
  // The store object

  class AllocationStore {
    var allocations: map<AllocationId, Record>
    var placements: map<ReeId, AllocationId>

    ghost function View(): Ledger reads this {
      Ledger(allocations, placements)
    }

    constructor ()
      ensures View() == Ledger(map[], map[])
    {
      allocations, placements := map[], map[];
    }

    method Create(request: Request, bench: BenchId, managed: bool) returns (ok: bool)
      modifies this
      ensures ok == CanCreate(old(View()), request)
      ensures ok <==> request.id !in old(allocations) && request.ree !in old(placements)
      ensures ok ==> View() == Created(old(View()), request, bench, managed)
      ensures ok ==> placements == old(placements)[request.ree := request.id]
                     && allocations
                        == old(allocations)[request.id := Record(request, Requested, bench, managed, "", "")]
      ensures !ok ==> View() == old(View())
      ensures old(OneLivePerRee(View())) ==> OneLivePerRee(View())
    {
      if request.id in allocations || request.ree in placements { return false; }
      allocations := allocations[request.id := Record(request, Requested, bench, managed, "", "")];
      placements := placements[request.ree := request.id];
      ok := true;
    }

    method Update(id: AllocationId, state: State, image: Option<string>, detail: Option<string>) returns (ok: bool)
      modifies this
      ensures ok == CanUpdate(old(View()), id, state)
      ensures ok ==> View() == Updated(old(View()), id, state, image, detail)
      ensures ok ==> placements == old(placements) && allocations.Keys == old(allocations).Keys
                     && forall other | other in allocations && other != id ::
                          allocations[other] == old(allocations)[other]
      ensures ok ==> var r, r' := old(allocations)[id], allocations[id];
                     && r' == r.(state := state, image := r'.image, detail := r'.detail)
                     && (image == Some(r'.image) || (image.None? && r'.image == r.image))
                     && (detail == Some(r'.detail) || (detail.None? && r'.detail == r.detail))
      ensures !ok ==> View() == old(View())
      ensures old(OneLivePerRee(View())) ==> OneLivePerRee(View())
    {
      if id !in allocations || !Legal(allocations[id].state, state) { return false; }
      var r := allocations[id].(state := state);
      if image.Some? { r := r.(image := image.value); }
      if detail.Some? { r := r.(detail := detail.value); }
      allocations := allocations[id := r];
      ok := true;
    }

    method ForRee(ree: ReeId) returns (record: Option<Record>)
      ensures record == if ree in placements && placements[ree] in allocations
                        then Some(allocations[placements[ree]]) else None
      ensures OneLivePerRee(View()) ==>
                forall id | id in allocations && allocations[id].request.ree == ree
                  && !allocations[id].state.Released? ::
                  record == Some(allocations[id])
    {
      record := if ree in placements && placements[ree] in allocations
                then Some(allocations[placements[ree]]) else None;
    }

    method RemovePlacement(ree: ReeId)
      modifies this
      ensures View() == Unplaced(old(View()), ree)
      ensures ree !in placements && allocations == old(allocations)
      ensures forall other | other != ree :: other in placements <==> other in old(placements)
      ensures forall other | other in placements :: placements[other] == old(placements)[other]
      ensures old(OneLivePerRee(View()))
              && (ree in old(placements) && old(placements)[ree] in allocations ==>
                    allocations[old(placements)[ree]].state.Released?)
              ==> OneLivePerRee(View())
    {
      placements := placements - {ree};
    }
  }

  // ---------------------------------------------------------------------
  // The bench side of an assignment

  /** The one process of a workbench, serving one allocation for its whole life. */
  class WorkbenchService {
    var assignment: Option<Request>
    var rootEmpty: bool

    constructor (rootEmpty: bool)
      ensures assignment.None? && this.rootEmpty == rootEmpty
    {
      assignment := None;
      this.rootEmpty := rootEmpty;
    }

    method Assign(request: Request) returns (ok: bool)
      modifies this`assignment
      ensures ok == Accepts(old(assignment), rootEmpty, request)
      ensures ok <==> old(assignment) == Some(request) || (old(assignment).None? && rootEmpty)
      ensures assignment == if ok then Some(request) else old(assignment)
    {
      if assignment.Some? { return assignment.value == request; }
      if !rootEmpty { return false; }
      assignment := Some(request);
      ok := true;
    }

    /** Commands are refused until there is an assignment, whichever it is. */
    method ExecSimple() returns (ok: bool)
      modifies this`rootEmpty
      ensures ok == assignment.Some? && rootEmpty == (old(rootEmpty) && !ok)
    {
      ok := assignment.Some?;
      if ok { rootEmpty := false; }
    }
  }

  predicate Accepts(assignment: Option<Request>, rootEmpty: bool, request: Request) {
    if assignment.Some? then assignment.value == request else rootEmpty
  }

  // ---------------------------------------------------------------------
  // What the manager reads from the other side

  datatype Frame = LogLine(text: string) | AllocationStatus(image: string) | Unavailable | Error | Other

  predicate Fails(f: Frame) { f.Unavailable? || f.Error? }

  datatype Lifecycle = Status(image: string) | Raised(frame: Frame) | NoStatus

  /** Of the first `n` frames, none of which fails, these are the log lines, in order, and
      where they stand. */
  ghost predicate LoggedUpTo(frames: seq<Frame>, n: nat, logged: seq<string>, places: seq<nat>) {
    && n <= |frames| && |places| == |logged|
    && (forall i | 0 <= i < n :: !Fails(frames[i]))
    && (forall k | 0 <= k < |places| :: places[k] < n && frames[places[k]] == LogLine(logged[k]))
    && (forall k, l | 0 <= k < l < |places| :: places[k] < places[l])
    && (forall i | 0 <= i < n && frames[i].LogLine? :: i in places)
  }

  lemma LoggedOneMore(frames: seq<Frame>, n: nat, logged: seq<string>, places: seq<nat>)
    requires LoggedUpTo(frames, n, logged, places) && n < |frames| && !Fails(frames[n])
    ensures if frames[n].LogLine? then LoggedUpTo(frames, n + 1, logged + [frames[n].text], places + [n])
            else LoggedUpTo(frames, n + 1, logged, places)
  {
  }

  /** Of the first `n` frames this is the last status. */
  ghost predicate LastStatus(frames: seq<Frame>, n: nat, i: nat, image: string) {
    && i < n <= |frames| && frames[i] == AllocationStatus(image)
    && forall j | i < j < n :: !frames[j].AllocationStatus?
  }

  /** How reading goes on from what was seen so far. */
  function OutcomeOf(frames: seq<Frame>, seen: Lifecycle): Lifecycle {
    if frames == [] then seen
    else if Fails(frames[0]) then Raised(frames[0])
    else OutcomeOf(frames[1..], if frames[0].AllocationStatus? then Status(frames[0].image) else seen)
  }

  /** It raises the first failure. */
  lemma {:induction false} FirstFailureIsRaised(frames: seq<Frame>, seen: Lifecycle)
    requires !seen.Raised?
    ensures var r := OutcomeOf(frames, seen);
            && (r.Raised? <==> exists i :: 0 <= i < |frames| && Fails(frames[i]))
            && (r.Raised? ==> exists i :: 0 <= i < |frames| && r.frame == frames[i] && Fails(frames[i])
                                          && forall j | 0 <= j < i :: !Fails(frames[j]))
  {
    if frames != [] && !Fails(frames[0]) {
      var rest := frames[1..];
      assert forall i | 0 <= i < |rest| :: rest[i] == frames[i + 1];
      FirstFailureIsRaised(rest, if frames[0].AllocationStatus? then Status(frames[0].image) else seen);
      if i :| 0 <= i < |frames| && Fails(frames[i]) { assert Fails(rest[i - 1]); }
      if OutcomeOf(frames, seen).Raised? {
        var i :| 0 <= i < |rest| && OutcomeOf(frames, seen).frame == rest[i] && Fails(rest[i])
                 && forall j | 0 <= j < i :: !Fails(rest[j]);
        assert forall j | 0 < j < i + 1 :: frames[j] == rest[j - 1];
        assert frames[i + 1] == rest[i];
      }
    }
  }

  /** Without a failure it ends with the last status. */
  lemma {:induction false} LastStatusCounts(frames: seq<Frame>, seen: Lifecycle)
    requires !OutcomeOf(frames, seen).Raised?
    ensures var r := OutcomeOf(frames, seen);
            if forall i | 0 <= i < |frames| :: !frames[i].AllocationStatus? then r == seen
            else r.Status? && exists i :: LastStatus(frames, |frames|, i, r.image)
  {
    if frames != [] {
      var rest, r := frames[1..], OutcomeOf(frames, seen);
      assert forall i | 0 <= i < |rest| :: rest[i] == frames[i + 1];
      LastStatusCounts(rest, if frames[0].AllocationStatus? then Status(frames[0].image) else seen);
      if exists i :: 0 <= i < |rest| && rest[i].AllocationStatus? {
        var i :| LastStatus(rest, |rest|, i, r.image);
        LaterStatusIsLast(frames, i, r.image);
      } else if frames[0].AllocationStatus? {
        assert forall j | 0 < j < |frames| :: frames[j] == rest[j - 1];
        assert LastStatus(frames, |frames|, 0, r.image);
      } else {
        assert forall j | 0 < j < |frames| :: frames[j] == rest[j - 1];
      }
    }
  }

  lemma LaterStatusIsLast(frames: seq<Frame>, i: nat, image: string)
    requires frames != [] && LastStatus(frames[1..], |frames| - 1, i, image)
    ensures LastStatus(frames, |frames|, i + 1, image) && frames[i + 1].AllocationStatus?
  {
    assert forall j | 0 < j < |frames| :: frames[j] == frames[1..][j - 1];
  }

  /** Reads a provider's frames up to the first failure, forwarding the log lines before
      it; without one the last status counts, and having none is a failure of its own. */
  method ConsumeLifecycle(frames: seq<Frame>) returns (r: Lifecycle, logged: seq<string>)
    ensures r.Raised? <==> exists i :: 0 <= i < |frames| && Fails(frames[i])
    ensures r.Raised? ==> exists i :: 0 <= i < |frames| && r.frame == frames[i] && Fails(frames[i])
                                      && forall j | 0 <= j < i :: !Fails(frames[j])
    ensures r.Status? ==> exists i :: LastStatus(frames, |frames|, i, r.image)
    ensures r.NoStatus? ==> forall i | 0 <= i < |frames| :: !frames[i].AllocationStatus?
    ensures exists n: nat, places: seq<nat> ::
              LoggedUpTo(frames, n, logged, places) && (n < |frames| ==> Fails(frames[n]))
  {
    ghost var n, places;
    r, logged, n, places := ReadLifecycle(frames);
    FirstFailureIsRaised(frames, NoStatus);
    if !r.Raised? { LastStatusCounts(frames, NoStatus); }
  }

  method ReadLifecycle(frames: seq<Frame>)
    returns (r: Lifecycle, logged: seq<string>, ghost n: nat, ghost places: seq<nat>)
    ensures r == OutcomeOf(frames, NoStatus)
    ensures LoggedUpTo(frames, n, logged, places) && (n < |frames| ==> Fails(frames[n]))
  {
    r, logged, places := NoStatus, [], [];
    var k := 0;
    assert frames[0..] == frames;
    while k < |frames|
      invariant k <= |frames| && LoggedUpTo(frames, k, logged, places)
      invariant OutcomeOf(frames, NoStatus) == OutcomeOf(frames[k..], r)
    {
      assert frames[k..][1..] == frames[k + 1..];
      if !Fails(frames[k]) { LoggedOneMore(frames, k, logged, places); }
      match frames[k] {
        case LogLine(text) => logged, places := logged + [text], places + [k];
        case AllocationStatus(image) => r := Status(image);
        case Unavailable => return Raised(frames[k]), logged, k, places;
        case Error => return Raised(frames[k]), logged, k, places;
        case Other =>
      }
      k := k + 1;
    }
    n := k;
  }

  /** What a connected bench said of itself, if it has yet. */
  datatype Hello = Hello(external: bool, location: Option<BenchId>)

  predicate Idle(hellos: map<BenchId, Option<Hello>>, held: set<BenchId>, id: BenchId, wanted: Option<BenchId>) {
    && id in hellos && hellos[id].Some? && hellos[id].value.external && id !in held
    && wanted == Some(if hellos[id].value.location.Some? then hellos[id].value.location.value else id)
  }

  /** Picks a connected external bench that no record holds, and records nothing. A
      bench is found under its own id and only when it gives no other location, so a
      request that names no bench never finds one. */
  method PickExternal(hellos: map<BenchId, Option<Hello>>, order: seq<BenchId>, held: set<BenchId>,
                      wanted: Option<BenchId>)
    returns (picked: Option<BenchId>)
    ensures picked.Some? <==>
              && wanted.Some? && wanted.value in hellos && hellos[wanted.value].Some? && wanted.value !in held
              && var hello := hellos[wanted.value].value;
                 hello.external && (hello.location.None? || hello.location == wanted)
    ensures picked.Some? ==> picked == wanted
  {
    var candidates := if wanted.Some? then [wanted.value] else order;
    var k := 0;
    while k < |candidates|
      invariant k <= |candidates|
      invariant forall i | 0 <= i < k :: !Idle(hellos, held, candidates[i], wanted)
    {
      var id := candidates[k];
      if id in hellos && hellos[id].Some? {
        var hello := hellos[id].value;
        var location := if hello.location.Some? then hello.location.value else id;
        if hello.external && Some(location) == wanted && id !in held { return Some(id); }
      }
      k := k + 1;
    }
    assert wanted.Some? ==> candidates[0] == wanted.value;
    picked := None;
  }

  // ---------------------------------------------------------------------
  // The manager

  /** How the remote calls of one provision end; a call is not made when an
      earlier one failed. */
  datatype Remote = Remote(ensures_: Option<string>, connects: bool, assigns: bool, initialises: bool)

  predicate AllWell(r: Remote) {
    r.ensures_.Some? && r.connects && r.assigns && r.initialises
  }

  class WorkbenchManager {
    const registry: AllocationStore
    var enrolled: set<AllocationId>
    var released: seq<AllocationId>   // best-effort and final releases asked of the provider
    var drained: seq<BenchId>         // benches told to finish and exit

    constructor (registry: AllocationStore)
      ensures this.registry == registry && enrolled == {} && released == [] && drained == []
    {
      this.registry, enrolled, released, drained := registry, {}, [], [];
    }

    /** Binds and initialises the bench; the record is left ready when that fails. */
    method AssignAndInitialise(request: Request, remote: Remote) returns (ok: bool)
      requires request.id in registry.allocations
      requires registry.allocations[request.id].state.WaitingForWorkbench?
      modifies registry
      ensures ok == (remote.assigns && remote.initialises)
      ensures registry.placements == old(registry.placements)
      ensures registry.allocations == old(registry.allocations)[request.id :=
                old(registry.allocations)[request.id].(state := if ok then Assigned else Ready)]
    {
      var done := registry.Update(request.id, Ready, None, None);
      if !remote.assigns || !remote.initialises { return false; }
      done := registry.Update(request.id, Assigned, None, None);
      ok := true;
    }

    /** A fresh allocation of a managed bench. It ends assigned, or it ends failed
        with its enrollment discarded and its bench released; a REE that has an
        allocation already is refused and nothing changes. */
    method Provision(request: Request, bench: BenchId, remote: Remote, why: string) returns (ok: bool)
      requires request.id !in registry.allocations && request.id !in enrolled
      modifies this`enrolled, this`released, registry
      ensures ok == (request.ree !in old(registry.placements) && remote.ensures_.Some? && remote.connects
                     && remote.assigns && remote.initialises)
      ensures request.ree in old(registry.placements) ==>
                registry.View() == old(registry.View()) && enrolled == old(enrolled) && released == old(released)
      ensures request.ree !in old(registry.placements) ==>
                && registry.placements == old(registry.placements)[request.ree := request.id]
                && registry.allocations == old(registry.allocations)[request.id :=
                     Record(request, if ok then Assigned else Failed, bench, true,
                            if remote.ensures_.Some? then remote.ensures_.value else "", if ok then "" else why)]
                && enrolled == (if ok then old(enrolled) + {request.id} else old(enrolled))
                && released == (if ok then old(released) else old(released) + [request.id])
    {
      ok := registry.Create(request, bench, true);
      if ok { ok := ProvisionMade(request, bench, remote, why); }
    }

    /** The rest of a provision, once its record is made. */
    method ProvisionMade(request: Request, bench: BenchId, remote: Remote, why: string) returns (ok: bool)
      requires request.id in registry.allocations && request.id !in enrolled
      requires registry.allocations[request.id] == Record(request, Requested, bench, true, "", "")
      modifies this`enrolled, this`released, registry
      ensures ok == AllWell(remote) && registry.placements == old(registry.placements)
      ensures registry.allocations == old(registry.allocations)[request.id :=
                Record(request, if ok then Assigned else Failed, bench, true,
                       if remote.ensures_.Some? then remote.ensures_.value else "", if ok then "" else why)]
      ensures enrolled == (if ok then old(enrolled) + {request.id} else old(enrolled))
      ensures released == (if ok then old(released) else old(released) + [request.id])
    {
      ok := registry.Update(request.id, Provisioning, None, None);
      enrolled := enrolled + {request.id};
      ghost var state: State;
      ok, state := TryProvision(request, remote);
      if !ok { Compensate(request.id, why); }
    }

    /** The externally managed bench the registry picked, if it found one. Ends
        assigned or failed; nothing is enrolled or released. */
    method ReserveExternal(request: Request, bench: Option<BenchId>, remote: Remote, why: string) returns (ok: bool)
      requires request.id !in registry.allocations
      modifies registry
      ensures var made := bench.Some? && request.ree !in old(registry.placements);
              && ok == (made && remote.assigns && remote.initialises)
              && (!made ==> registry.View() == old(registry.View()))
              && (made ==>
                    && registry.placements == old(registry.placements)[request.ree := request.id]
                    && registry.allocations == old(registry.allocations)[request.id :=
                         Record(request, if ok then Assigned else Failed, bench.value, false, "",
                                if ok then "" else why)])
    {
      if bench.None? { return false; }
      ok := registry.Create(request, bench.value, false);
      if !ok { return; }
      ok := registry.Update(request.id, WaitingForWorkbench, None, None);
      ok := AssignAndInitialise(request, remote);
      if !ok {
        var done := registry.Update(request.id, Failed, None, Some(why));
      }
    }

    method TryProvision(request: Request, remote: Remote) returns (ok: bool, ghost state: State)
      requires request.id in registry.allocations && registry.allocations[request.id].state.Provisioning?
      modifies registry
      ensures ok == AllWell(remote) && registry.placements == old(registry.placements)
      ensures Legal(state, Failed) && (if ok then state == Assigned else state != Failed)
      ensures registry.allocations == old(registry.allocations)[request.id :=
                old(registry.allocations)[request.id].(state := state,
                  image := if remote.ensures_.Some? then remote.ensures_.value
                           else old(registry.allocations)[request.id].image)]
    {
      if remote.ensures_.None? { return false, Provisioning; }
      ok := registry.Update(request.id, WaitingForWorkbench, remote.ensures_, None);
      if !remote.connects { return false, WaitingForWorkbench; }
      ok := AssignAndInitialise(request, remote);
      state := if ok then Assigned else Ready;
    }

    method Compensate(id: AllocationId, why: string)
      requires id in registry.allocations && Legal(registry.allocations[id].state, Failed)
      modifies this`enrolled, this`released, registry
      ensures registry.placements == old(registry.placements)
      ensures registry.allocations == if old(registry.allocations)[id].state.Failed? then old(registry.allocations)
                                      else old(registry.allocations)[id :=
                                             old(registry.allocations)[id].(state := Failed, detail := why)]
      ensures enrolled == old(enrolled) - {id} && released == old(released) + [id]
    {
      enrolled := enrolled - {id};
      if !registry.allocations[id].state.Failed? {
        var done := registry.Update(id, Failed, None, Some(why));
      }
      released := released + [id];
    }

    /** Drains, releases and unregisters. The bench is drained before anything is
        checked, so a stale handle, of an allocation already released, changes no
        record and no placement but still stops the bench. `drains` is false when
        draining fails otherwise than by the bench being away. */
    method Teardown(id: AllocationId, ree: ReeId, managed: bool, drains: bool, releases: bool) returns (ok: bool)
      requires id in registry.allocations && registry.allocations[id].request.ree == ree
      requires OneLivePerRee(registry.View())
      modifies this`drained, this`enrolled, this`released, registry
      ensures OneLivePerRee(registry.View())
      ensures drained == old(drained) + [old(registry.allocations)[id].bench]
      ensures var goesOn := drains && !old(registry.allocations)[id].state.Released?;
              && ok == (goesOn && (managed ==> releases))
              && (!goesOn ==> registry.View() == old(registry.View()))
              && (goesOn ==>
                    && registry.allocations == old(registry.allocations)[id :=
                         old(registry.allocations)[id].(state := if ok then Released else Draining)]
                    && registry.placements == if ok then old(registry.placements) - {ree} else old(registry.placements))
              && released == (if goesOn && managed then old(released) + [id] else old(released))
              && enrolled == (if ok && managed then old(enrolled) - {id} else old(enrolled))
    {
      drained := drained + [registry.allocations[id].bench];
      if !drains { return false; }
      ok := registry.Update(id, Draining, None, None);
      if !ok { return; }
      ok := Release(id, managed, releases);
      if ok { Unregister(id, ree); }
    }

    method Unregister(id: AllocationId, ree: ReeId)
      requires id in registry.allocations && registry.allocations[id].state.Draining?
      requires registry.allocations[id].request.ree == ree && OneLivePerRee(registry.View())
      modifies registry
      ensures OneLivePerRee(registry.View())
      ensures registry.allocations == old(registry.allocations)[id := old(registry.allocations)[id].(state := Released)]
      ensures registry.placements == old(registry.placements) - {ree}
    {
      var done := registry.Update(id, Released, None, None);
      registry.RemovePlacement(ree);
    }

    /** A managed bench is given back to its provider, which may fail. */
    method Release(id: AllocationId, managed: bool, releases: bool) returns (ok: bool)
      modifies this`released, this`enrolled
      ensures ok == (managed ==> releases)
      ensures released == (if managed then old(released) + [id] else old(released))
      ensures enrolled == (if ok && managed then old(enrolled) - {id} else old(enrolled))
    {
      if managed {
        released := released + [id];
        if !releases { return false; }
        enrolled := enrolled - {id};
      }
      ok := true;
    }
  }
}

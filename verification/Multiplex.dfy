/**
 One socket to a bench, shared by many synchronous callers. Every request has its
 own queue; inbound frames are looked up in the pending table under a lock and
 put on the queue outside it, so a close or a discard may come in between.

 A run is any list of steps of the socket's reader, the callers and whoever
 closes the connection. A step that is not enabled changes nothing.
 */
module Multiplex {
  import opened Common

  type RequestId(==, !new) = nat

  datatype Frame =
    | LogFrame(text: string)
    | SpanFrame(text: string)
    | BytesChunkFrame(text: string)
    | WorkbenchRefFrame(text: string)
    | ResultFrame(text: string)
    | DoneFrame
    | UnavailableFrame(text: string)
    | ErrorFrame(text: string)
    | RunningFrame(running: bool)
    | AllocationStatusFrame(text: string)
    | TransferFrame(text: string)

  predicate Terminal(f: Frame) {
    !f.LogFrame? && !f.SpanFrame? && !f.BytesChunkFrame?
  }

  /** The frames that end a reply. */
  lemma TerminalFrames(f: Frame)
    ensures Terminal(f) <==>
              f.WorkbenchRefFrame? || f.ResultFrame? || f.DoneFrame? || f.UnavailableFrame? || f.ErrorFrame?
              || f.RunningFrame? || f.AllocationStatusFrame? || f.TransferFrame?
  {
  }

  const CLOSED: Frame := UnavailableFrame("workbench connection closed")

  /** One request: its entry in the pending table, its queue, and what has
      happened to it so far. */
  datatype Request = Request(
    pending: bool,           // in the pending table
    owed: bool,              // taken out by a close that has not notified it yet
    queue: seq<Frame>,
    received: seq<Frame>,    // frames that reached the socket for it
    yielded: seq<Frame>,     // frames its caller has been given
    noticeAt: Option<nat>,   // where in its stream the close notice was put
    left: bool,              // its caller stopped listening
    canceled: bool)          // the bench was told to cancel it
  {
    predicate Finished() {
      exists k | 0 <= k < |yielded| :: Terminal(yielded[k])
    }

    predicate Listening() {
      !left && (yielded == [] || !Terminal(yielded[|yielded| - 1]))
    }
  }

  datatype Link = Link(
    closed: bool,
    routing: Option<(RequestId, Frame)>,   // looked up, not put yet
    requests: map<RequestId, Request>)

  const FRESH_LINK: Link := Link(false, None, map[])
  const ISSUED: Request := Request(true, false, [], [], [], None, false, false)

  datatype Step =
    | Start(id: RequestId)
    | Lookup(id: RequestId, frame: Frame)
    | Put
    | Get(id: RequestId)
    | Leave(id: RequestId)
    | Discard(id: RequestId)
    | MarkClosed
    | Notify(id: RequestId)

  predicate Enabled(l: Link, step: Step) {
    match step
    case Start(id) => !l.closed && id !in l.requests
    case Lookup(id, _) => l.routing.None? && id in l.requests
    case Put => l.routing.Some? && l.routing.value.0 in l.requests
    case Get(id) => id in l.requests && l.requests[id].Listening() && l.requests[id].queue != []
    case Leave(id) => id in l.requests && !l.requests[id].left
    case Discard(id) => id in l.requests
    case MarkClosed => true
    case Notify(id) => id in l.requests && l.requests[id].owed
  }

  function Receive(r: Request, frame: Frame): Request {
    r.(received := r.received + [frame])
  }

  function Enqueue(r: Request, frame: Frame): Request {
    r.(queue := r.queue + [frame])
  }

  function Take(r: Request): Request
    requires r.queue != []
  {
    r.(queue := r.queue[1..], yielded := r.yielded + [r.queue[0]])
  }

  function Quit(r: Request, tellBench: bool): Request {
    r.(pending := false, left := true, canceled := r.canceled || (tellBench && r.Listening()))
  }

  function Orphan(r: Request): Request {
    if r.pending then r.(pending := false, owed := true) else r
  }

  function Notified(r: Request): Request {
    r.(owed := false, queue := r.queue + [CLOSED], noticeAt := Some(|r.yielded| + |r.queue|))
  }

  function Do(l: Link, step: Step): Link {
    if !Enabled(l, step) then l else
    match step
    case Start(id) => l.(requests := l.requests[id := ISSUED])
    case Lookup(id, frame) =>
      l.(routing := if l.requests[id].pending then Some((id, frame)) else None,
         requests := l.requests[id := Receive(l.requests[id], frame)])
    case Put =>
      var (id, frame) := l.routing.value;
      l.(routing := None, requests := l.requests[id := Enqueue(l.requests[id], frame)])
    case Get(id) => l.(requests := l.requests[id := Take(l.requests[id])])
    case Leave(id) => l.(requests := l.requests[id := Quit(l.requests[id], !l.closed)])
    case Discard(id) => l.(requests := l.requests[id := Quit(l.requests[id], false)])
    case MarkClosed => l.(closed := true, requests := map id | id in l.requests :: Orphan(l.requests[id]))
    case Notify(id) => l.(requests := l.requests[id := Notified(l.requests[id])])
  }

  // ---------------------------------------------------------------------
  // The invariant

  function Without(s: seq<Frame>, i: nat): seq<Frame>
    requires i < |s|
  {
    s[..i] + s[i + 1..]
  }

  /** The frame looked up for this request and not put yet, if any. */
  function InTransit(l: Link, id: RequestId): seq<Frame> {
    if l.routing.Some? && l.routing.value.0 == id then [l.routing.value.1] else []
  }

  /** A request's whole stream, given, queued or about to be queued, is the first
      frames received for it, with the close notice put in at one place at most. */
  ghost predicate StreamOk(r: Request, transit: seq<Frame>) {
    var all := r.yielded + r.queue + transit;
    if r.noticeAt.Some? then
      var i := r.noticeAt.value;
      i < |r.yielded| + |r.queue| && all[i] == CLOSED && Without(all, i) <= r.received
    else all <= r.received && (r.pending ==> all == r.received)
  }

  ghost predicate RequestOk(r: Request, closed: bool, transit: seq<Frame>) {
    && StreamOk(r, transit)
    && (r.pending ==> !r.owed && r.noticeAt.None? && !closed)
    && (r.owed ==> closed && r.noticeAt.None?)
    && (r.noticeAt.Some? ==> closed)
    && (forall k | 0 <= k < |r.yielded| - 1 :: !Terminal(r.yielded[k]))
    && (!r.left ==> r.pending || r.owed || r.noticeAt.Some?)
    && (r.canceled ==> r.left && !r.Finished())
    && (r.left ==> !r.pending)
  }

  ghost predicate Inv(l: Link) {
    && (l.routing.Some? ==> l.routing.value.0 in l.requests)
    && forall id {:trigger RequestOk(l.requests[id], l.closed, InTransit(l, id))} | id in l.requests ::
         RequestOk(l.requests[id], l.closed, InTransit(l, id))
  }

  lemma ReceiveOk(r: Request, closed: bool, frame: Frame)
    requires RequestOk(r, closed, [])
    ensures RequestOk(Receive(r, frame), closed, if r.pending then [frame] else [])
  {
    assert r.yielded + r.queue + [] == r.yielded + r.queue;
  }

  lemma EnqueueOk(r: Request, closed: bool, frame: Frame)
    requires RequestOk(r, closed, [frame])
    ensures RequestOk(Enqueue(r, frame), closed, [])
  {
    assert r.yielded + (r.queue + [frame]) + [] == r.yielded + r.queue + [frame];
  }

  lemma TakeOk(r: Request, closed: bool, transit: seq<Frame>)
    requires RequestOk(r, closed, transit) && r.Listening() && r.queue != []
    ensures RequestOk(Take(r), closed, transit)
  {
    assert (r.yielded + [r.queue[0]]) + r.queue[1..] + transit == r.yielded + r.queue + transit;
  }

  lemma QuitOk(r: Request, closed: bool, transit: seq<Frame>, tellBench: bool)
    requires RequestOk(r, closed, transit)
    ensures RequestOk(Quit(r, tellBench), closed, transit)
  {
  }

  lemma NotifiedOk(r: Request, closed: bool, transit: seq<Frame>)
    requires RequestOk(r, closed, transit) && r.owed
    ensures RequestOk(Notified(r), closed, transit)
  {
    NoticeInPlace(r.yielded, r.queue, transit);
  }

  lemma NoticeInPlace(yielded: seq<Frame>, queue: seq<Frame>, transit: seq<Frame>)
    ensures var all := yielded + (queue + [CLOSED]) + transit;
            all[|yielded| + |queue|] == CLOSED && Without(all, |yielded| + |queue|) == yielded + queue + transit
  {
  }

  /** A step that changes one request keeps the invariant when that one stays right. */
  lemma OneChanged(l: Link, l': Link, id: RequestId)
    requires Inv(l) && l'.closed == l.closed && id in l'.requests
    requires l'.requests - {id} == l.requests - {id}
    requires forall other | other in l.requests && other != id :: InTransit(l', other) == InTransit(l, other)
    requires l'.routing.Some? ==> l'.routing.value.0 in l'.requests
    requires RequestOk(l'.requests[id], l'.closed, InTransit(l', id))
    ensures Inv(l')
  {
    forall other | other in l'.requests ensures RequestOk(l'.requests[other], l'.closed, InTransit(l', other)) {
      if other != id {
        assert other in l'.requests - {id} && (l'.requests - {id})[other] == (l.requests - {id})[other];
        assert RequestOk(l.requests[other], l.closed, InTransit(l, other));
      }
    }
  }

  lemma StartKeepsInv(l: Link, id: RequestId)
    requires Inv(l) && Enabled(l, Start(id))
    ensures Inv(Do(l, Start(id)))
  {
    assert InTransit(l, id) == [];
    OneChanged(l, Do(l, Start(id)), id);
  }

  lemma LookupKeepsInv(l: Link, id: RequestId, frame: Frame)
    requires Inv(l) && Enabled(l, Lookup(id, frame))
    ensures Inv(Do(l, Lookup(id, frame)))
  {
    assert RequestOk(l.requests[id], l.closed, InTransit(l, id));
    ReceiveOk(l.requests[id], l.closed, frame);
    OneChanged(l, Do(l, Lookup(id, frame)), id);
  }

  lemma PutKeepsInv(l: Link)
    requires Inv(l) && Enabled(l, Put)
    ensures Inv(Do(l, Put))
  {
    var (id, frame) := l.routing.value;
    assert RequestOk(l.requests[id], l.closed, InTransit(l, id));
    EnqueueOk(l.requests[id], l.closed, frame);
    OneChanged(l, Do(l, Put), id);
  }

  lemma GetKeepsInv(l: Link, id: RequestId)
    requires Inv(l) && Enabled(l, Get(id))
    ensures Inv(Do(l, Get(id)))
  {
    assert RequestOk(l.requests[id], l.closed, InTransit(l, id));
    TakeOk(l.requests[id], l.closed, InTransit(l, id));
    OneChanged(l, Do(l, Get(id)), id);
  }

  lemma QuitKeepsInv(l: Link, id: RequestId, tellBench: bool)
    requires Inv(l) && id in l.requests
    ensures Inv(l.(requests := l.requests[id := Quit(l.requests[id], tellBench)]))
  {
    assert RequestOk(l.requests[id], l.closed, InTransit(l, id));
    QuitOk(l.requests[id], l.closed, InTransit(l, id), tellBench);
    OneChanged(l, l.(requests := l.requests[id := Quit(l.requests[id], tellBench)]), id);
  }

  lemma NotifyKeepsInv(l: Link, id: RequestId)
    requires Inv(l) && Enabled(l, Notify(id))
    ensures Inv(Do(l, Notify(id)))
  {
    assert RequestOk(l.requests[id], l.closed, InTransit(l, id));
    NotifiedOk(l.requests[id], l.closed, InTransit(l, id));
    OneChanged(l, Do(l, Notify(id)), id);
  }

  lemma OrphanOk(r: Request, closed: bool, transit: seq<Frame>)
    requires RequestOk(r, closed, transit)
    ensures RequestOk(Orphan(r), true, transit)
  {
  }

  lemma MarkClosedKeepsInv(l: Link)
    requires Inv(l)
    ensures Inv(Do(l, MarkClosed))
  {
    var l' := Do(l, MarkClosed);
    forall id | id in l'.requests ensures RequestOk(l'.requests[id], l'.closed, InTransit(l', id)) {
      assert RequestOk(l.requests[id], l.closed, InTransit(l, id));
      OrphanOk(l.requests[id], l.closed, InTransit(l, id));
    }
  }

  lemma StepKeepsInv(l: Link, step: Step)
    requires Inv(l)
    ensures Inv(Do(l, step))
  {
    if Enabled(l, step) {
      match step
      case Start(id) => StartKeepsInv(l, id);
      case Lookup(id, frame) => LookupKeepsInv(l, id, frame);
      case Put => PutKeepsInv(l);
      case Get(id) => GetKeepsInv(l, id);
      case Leave(id) => QuitKeepsInv(l, id, !l.closed);
      case Discard(id) => QuitKeepsInv(l, id, false);
      case MarkClosed => MarkClosedKeepsInv(l);
      case Notify(id) => NotifyKeepsInv(l, id);
    }
  }

  // ---------------------------------------------------------------------
  // Whole runs

  ghost function Run(l: Link, steps: seq<Step>): (r: Link)
    requires Inv(l)
    ensures Inv(r)
    decreases |steps|
  {
    if steps == [] then l else
    StepKeepsInv(l, steps[0]);
    Run(Do(l, steps[0]), steps[1..])
  }

  /** A run goes on with whatever step comes next. */
  lemma {:induction false} RunOneMore(l: Link, steps: seq<Step>, step: Step)
    requires Inv(l)
    ensures Run(l, steps + [step]) == Do(Run(l, steps), step)
    decreases |steps|
  {
    if steps == [] {
      StepKeepsInv(l, step);
      assert ([step])[1..] == [] && Run(Do(l, step), []) == Do(l, step);
    } else {
      StepKeepsInv(l, steps[0]);
      assert (steps + [step])[1..] == steps[1..] + [step];
      RunOneMore(Do(l, steps[0]), steps[1..], step);
    }
  }

  /** Every stream is, in order, the first frames received for its own request,
      followed by at most the close notice, and ends at its first terminal frame. */
  lemma StreamsAreFaithful(steps: seq<Step>, id: RequestId)
    requires id in Run(FRESH_LINK, steps).requests
    ensures var r := Run(FRESH_LINK, steps).requests[id];
            && (r.yielded <= r.received
                || exists sent | sent <= r.received :: r.yielded == sent + [CLOSED])
            && forall k | 0 <= k < |r.yielded| - 1 :: !Terminal(r.yielded[k])
  {
    var l := Run(FRESH_LINK, steps);
    assert RequestOk(l.requests[id], l.closed, InTransit(l, id));
    FaithfulWhenOk(l.requests[id], l.closed, InTransit(l, id));
  }

  lemma FaithfulWhenOk(r: Request, closed: bool, transit: seq<Frame>)
    requires RequestOk(r, closed, transit)
    ensures r.yielded <= r.received || exists sent | sent <= r.received :: r.yielded == sent + [CLOSED]
  {
    var all := r.yielded + r.queue + transit;
    if r.noticeAt.Some? && r.noticeAt.value < |r.yielded| {
      var i := r.noticeAt.value;
      assert r.yielded[i] == all[i] == CLOSED;
      var sent := r.yielded[..i];
      assert sent <= Without(all, i);
      assert r.yielded == sent + [CLOSED];
    } else if r.noticeAt.Some? {
      assert r.yielded <= Without(all, r.noticeAt.value);
    }
  }

  /** Closing strands no caller: once the connection is closed nothing is pending,
      and a caller still listening either is about to be notified or already has
      a terminal frame waiting in its queue. */
  lemma NobodyStranded(steps: seq<Step>, id: RequestId)
    requires Run(FRESH_LINK, steps).closed && id in Run(FRESH_LINK, steps).requests
    ensures var r := Run(FRESH_LINK, steps).requests[id];
            && !r.pending
            && (r.Listening() && !r.owed ==> exists k | 0 <= k < |r.queue| :: Terminal(r.queue[k]))
  {
    var l := Run(FRESH_LINK, steps);
    var r := l.requests[id];
    assert RequestOk(r, l.closed, InTransit(l, id));
    if r.Listening() && !r.owed {
      NoticeStillQueued(r, l.closed, InTransit(l, id));
    }
  }

  lemma NoticeStillQueued(r: Request, closed: bool, transit: seq<Frame>)
    requires RequestOk(r, closed, transit) && r.Listening() && r.noticeAt.Some?
    ensures r.noticeAt.value >= |r.yielded| && r.queue[r.noticeAt.value - |r.yielded|] == CLOSED
  {
    assert (r.yielded + r.queue + transit)[..|r.yielded|] == r.yielded;
  }

  /** Nothing becomes pending again after a close. */
  lemma ClosedStaysClosed(l: Link, steps: seq<Step>)
    requires Inv(l) && l.closed
    ensures Run(l, steps).closed && forall id | id in Run(l, steps).requests :: !Run(l, steps).requests[id].pending
    decreases |steps|
  {
    if steps != [] {
      StepKeepsInv(l, steps[0]);
      ClosedStaysClosed(Do(l, steps[0]), steps[1..]);
    }
    var r := Run(l, steps);
    assert forall id | id in r.requests :: RequestOk(r.requests[id], r.closed, InTransit(r, id));
  }

  /** A caller that left is forgotten: its entry is gone, and a frame that arrives for it
      from then on is put nowhere. */
  lemma LeftIsForgotten(steps: seq<Step>, id: RequestId, frame: Frame)
    requires id in Run(FRESH_LINK, steps).requests && Run(FRESH_LINK, steps).requests[id].left
    ensures var l := Run(FRESH_LINK, steps);
            var l' := Do(l, Step.Lookup(id, frame));
            !l.requests[id].pending && (l.routing.None? ==> l'.routing.None?)
            && l'.requests[id].queue == l.requests[id].queue && l'.requests[id].yielded == l.requests[id].yielded
  {
    var l := Run(FRESH_LINK, steps);
    assert RequestOk(l.requests[id], l.closed, InTransit(l, id));
  }

  /** The bench is told to cancel a request only when its caller left without
      having seen a terminal frame, and it is told so whenever that happens by
      leaving the stream while the connection is open. */
  lemma CancelsAreOfAbandonedStreams(steps: seq<Step>, id: RequestId)
    requires id in Run(FRESH_LINK, steps).requests
    ensures var l := Run(FRESH_LINK, steps);
            var r := l.requests[id];
            && (r.canceled ==> r.left && !r.Finished())
            && (!r.left && !l.closed && !r.Finished() ==> Do(l, Leave(id)).requests[id].canceled)
  {
    var l := Run(FRESH_LINK, steps);
    assert RequestOk(l.requests[id], l.closed, InTransit(l, id));
  }

  // ---------------------------------------------------------------------
  // The connection object

  /** Between the two links, every request that was pending has been closed and,
      but for those in `left`, notified; the others are as they were. */
  ghost predicate NotifiedAllBut(l: Link, l': Link, left: set<RequestId>) {
    && l'.routing == l.routing && l'.requests.Keys == l.requests.Keys
    && forall id | id in l.requests ::
         l'.requests[id] == if id in left || !l.requests[id].pending then Orphan(l.requests[id])
                            else Notified(Orphan(l.requests[id]))
  }

  ghost predicate SameEntry(l: Link, l': Link, id: RequestId) {
    id in l.requests && id in l'.requests && l'.requests[id].queue == l.requests[id].queue
    && l'.requests[id].pending == l.requests[id].pending
  }

  lemma LookupKeepsEntries(l: Link, id: RequestId, frame: Frame)
    ensures var l' := Do(l, Lookup(id, frame));
            && l'.closed == l.closed && l'.requests.Keys == l.requests.Keys
            && forall other | other in l.requests :: SameEntry(l, l', other)
  {
  }

  lemma LookupFinds(l: Link, id: RequestId, frame: Frame)
    requires l.routing.None?
    ensures Do(l, Lookup(id, frame)).routing
            == if id in l.requests && l.requests[id].pending then Some((id, frame)) else None
  {
  }

  lemma PutKeepsEntries(l: Link)
    requires Enabled(l, Put)
    ensures var l', (id, frame) := Do(l, Put), l.routing.value;
            && l'.closed == l.closed && l'.requests.Keys == l.requests.Keys
            && l'.requests[id].queue == l.requests[id].queue + [frame]
            && l'.requests[id].pending == l.requests[id].pending
            && forall other | other in l.requests && other != id :: SameEntry(l, l', other)
  {
  }

  lemma GetKeepsEntries(l: Link, id: RequestId)
    requires Enabled(l, Get(id))
    ensures var l' := Do(l, Get(id));
            && l'.closed == l.closed && l'.requests.Keys == l.requests.Keys
            && l'.requests[id].queue == l.requests[id].queue[1..]
            && l'.requests[id].pending == l.requests[id].pending
            && forall other | other in l.requests && other != id :: SameEntry(l, l', other)
  {
  }

  lemma NotifyKeepsEntries(l: Link, id: RequestId)
    requires Enabled(l, Notify(id))
    ensures var l' := Do(l, Notify(id));
            && l' == l.(requests := l.requests[id := Notified(l.requests[id])])
            && l'.requests.Keys == l.requests.Keys
            && l'.requests[id].queue == l.requests[id].queue + [CLOSED]
            && l'.requests[id].pending == l.requests[id].pending
            && forall other | other in l.requests && other != id :: SameEntry(l, l', other)
  {
  }

  lemma TakenBack<T>(m: map<RequestId, T>, id: RequestId, x: T)
    requires id !in m
    ensures m[id := x] - {id} == m
  {
  }

  class ReplyQueue {
    var items: seq<Frame>

    constructor ()
      ensures items == []
    {
      items := [];
    }
  }

  /** `link` follows the object step by step; `queueOf` remembers which queue was
      made for which request, also after it left the pending table. */
  class WorkbenchConnection {
    var pending: map<RequestId, ReplyQueue>
    var closed: bool
    ghost var link: Link
    ghost var queueOf: map<RequestId, ReplyQueue>
    ghost var trace: seq<Step>

    ghost predicate Valid()
      reads this, queueOf.Values
    {
      && link == Run(FRESH_LINK, trace)
      && closed == link.closed
      && queueOf.Keys == link.requests.Keys
      && (forall id, other | id in queueOf && other in queueOf && id != other :: queueOf[id] != queueOf[other])
      && (forall id | id in queueOf :: queueOf[id].items == link.requests[id].queue)
      && (forall id | id in pending :: id in queueOf && pending[id] == queueOf[id])
      && (forall id | id in link.requests :: id in pending <==> link.requests[id].pending)
    }

    constructor ()
      ensures Valid() && link == FRESH_LINK && fresh(queueOf.Values)
    {
      pending, closed := map[], false;
      link, queueOf, trace := FRESH_LINK, map[], [];
    }

    /** Registers the request, then sends it; the entry is taken back when sending
        fails. `None` when the connection is closed or sending failed. */
    method Start(id: RequestId, sends: bool) returns (reply: Option<ReplyQueue>)
      requires Valid() && id !in queueOf
      modifies this
      ensures Valid() && (reply.None? <==> old(closed) || !sends)
      ensures old(closed) ==> link == old(link) && queueOf == old(queueOf) && pending == old(pending)
      ensures reply.Some? ==>
                fresh(reply.value) && queueOf == old(queueOf)[id := reply.value]
                && link == Do(old(link), Step.Start(id)) && pending == old(pending)[id := reply.value]
      ensures !old(closed) && !sends ==>
                pending == old(pending) && link == Do(Do(old(link), Step.Start(id)), Step.Discard(id))
                && queueOf - {id} == old(queueOf)
    {
      if closed { return None; }
      var q := Issue(id);
      if sends { return Some(q); }
      TakenBack(old(pending), id, q);
      TakenBack(old(queueOf), id, q);
      Discard(id);
      return None;
    }

    method Issue(id: RequestId) returns (q: ReplyQueue)
      requires Valid() && id !in queueOf && !closed
      modifies this
      ensures Valid() && fresh(q) && link == Do(old(link), Step.Start(id))
      ensures pending == old(pending)[id := q] && queueOf == old(queueOf)[id := q] && id !in old(pending)
    {
      q := new ReplyQueue();
      pending := pending[id := q];
      queueOf := queueOf[id := q];
      Follow(Step.Start(id));
    }

    /** The run goes on by this step. */
    ghost method Follow(step: Step)
      requires link == Run(FRESH_LINK, trace)
      modifies this`link, this`trace
      ensures link == Do(old(link), step) && link == Run(FRESH_LINK, trace)
    {
      RunOneMore(FRESH_LINK, trace, step);
      link, trace := Do(link, step), trace + [step];
    }

    /** First half of handling an inbound frame, under the lock. */
    method Lookup(id: RequestId, frame: Frame) returns (q: Option<ReplyQueue>)
      requires Valid() && link.routing.None?
      modifies this
      ensures Valid() && link == Do(old(link), Step.Lookup(id, frame)) && queueOf == old(queueOf)
      ensures q.Some? <==> link.routing == Some((id, frame))
      ensures q.Some? ==> id in queueOf && q.value == queueOf[id]
      ensures q == (if id in pending then Some(pending[id]) else None) && pending == old(pending)
    {
      q := if id in pending then Some(pending[id]) else None;
      LookupFinds(link, id, frame);
      LookupKeepsEntries(link, id, frame);
      Follow(Step.Lookup(id, frame));
    }

    /** One queue changes, as the step says; the others stay. */
    method SetQueue(q: ReplyQueue, items: seq<Frame>, ghost id: RequestId, ghost step: Step)
      requires Valid() && id in queueOf && q == queueOf[id]
      requires var next := Do(link, step);
               && next.closed == link.closed && next.requests.Keys == link.requests.Keys
               && next.requests[id].queue == items && next.requests[id].pending == link.requests[id].pending
               && forall other | other in link.requests && other != id :: SameEntry(link, next, other)
      modifies this`link, this`trace, q
      ensures Valid() && link == Do(old(link), step) && q.items == items
    {
      q.items := items;
      Follow(step);
    }

    /** Second half, outside the lock: the request may have been discarded and the
        connection closed since. */
    method Put(q: ReplyQueue, frame: Frame, ghost id: RequestId)
      requires Valid() && link.routing == Some((id, frame)) && id in queueOf && q == queueOf[id]
      modifies this, q
      ensures Valid() && link == Do(old(link), Step.Put) && queueOf == old(queueOf)
      ensures q.items == old(q.items) + [frame] && pending == old(pending)
    {
      PutKeepsEntries(link);
      SetQueue(q, q.items + [frame], id, Step.Put);
    }

    /** One resumption of the stream a caller reads: the next frame, or, when none
        came in time, the end of the wait. */
    method Next(id: RequestId, q: ReplyQueue) returns (frame: Option<Frame>)
      requires Valid() && id in queueOf && q == queueOf[id] && link.requests[id].Listening()
      modifies this, q
      ensures Valid() && queueOf == old(queueOf)
      ensures frame.None? <==> old(q.items) == []
      ensures frame.Some? ==> frame.value == old(q.items)[0] && q.items == old(q.items)[1..] && pending == old(pending)
                              && link == Do(old(link), Get(id))
      ensures frame.None? ==> q.items == [] && pending == old(pending) - {id} && link == Do(old(link), Step.Leave(id))
    {
      if q.items == [] {
        Leave(id);
        return None;
      }
      var head := Pop(id, q);
      return Some(head);
    }

    method Pop(id: RequestId, q: ReplyQueue) returns (frame: Frame)
      requires Valid() && id in queueOf && q == queueOf[id] && link.requests[id].Listening() && q.items != []
      modifies this, q
      ensures Valid() && queueOf == old(queueOf)
      ensures frame == old(q.items)[0] && q.items == old(q.items)[1..] && pending == old(pending)
      ensures link == Do(old(link), Get(id))
    {
      GetKeepsEntries(link, id);
      frame := q.items[0];
      SetQueue(q, q.items[1..], id, Get(id));
    }

    /** The caller stops reading: the entry goes, and an unfinished request is
        canceled at the bench while the socket is still up. */
    method Leave(id: RequestId)
      requires Valid() && id in queueOf && !link.requests[id].left
      modifies this
      ensures Valid() && link == Do(old(link), Step.Leave(id)) && queueOf == old(queueOf)
      ensures pending == old(pending) - {id} && link.requests[id].left
      ensures link.requests[id].canceled
              <==> old(link).requests[id].canceled || (!closed && old(link).requests[id].Listening())
    {
      pending := pending - {id};
      Follow(Step.Leave(id));
    }

    method Discard(id: RequestId)
      requires Valid() && id in queueOf
      modifies this
      ensures Valid() && link == Do(old(link), Step.Discard(id)) && queueOf == old(queueOf)
      ensures pending == old(pending) - {id}
    {
      pending := pending - {id};
      Follow(Step.Discard(id));
    }

    /** Marks the connection closed, then puts a notice on every queue that was
        pending. */
    method Close()
      requires Valid()
      modifies this, queueOf.Values
      ensures Valid() && closed && queueOf == old(queueOf) && pending == map[]
      ensures NotifiedAllBut(old(link), link, {})
      ensures forall id | id in queueOf ::
                queueOf[id].items == if id in old(pending) then old(queueOf[id].items) + [CLOSED]
                                     else old(queueOf[id].items)
    {
      var taken := MarkClosed();
      ghost var before := old(link);
      NotifyAll(taken, before);
    }

    method NotifyAll(taken: map<RequestId, ReplyQueue>, ghost before: Link)
      requires Valid() && closed && NotifiedAllBut(before, link, taken.Keys)
      requires forall id | id in taken :: id in queueOf && taken[id] == queueOf[id] && before.requests[id].pending
      modifies this, queueOf.Values
      ensures Valid() && closed && queueOf == old(queueOf) && pending == old(pending)
      ensures NotifiedAllBut(before, link, {})
    {
      var left := taken.Keys;
      while left != {}
        invariant Valid() && closed && queueOf == old(queueOf) && pending == old(pending)
        invariant left <= taken.Keys
        invariant NotifiedAllBut(before, link, left)
      {
        var id :| id in left;
        NotifyOne(taken[id], id, before, left);
        left := left - {id};
      }
    }

    method NotifyOne(q: ReplyQueue, ghost id: RequestId, ghost before: Link, ghost left: set<RequestId>)
      requires Valid() && id in queueOf && q == queueOf[id] && id in left
      requires NotifiedAllBut(before, link, left) && before.requests[id].pending
      modifies this, q
      ensures Valid() && queueOf == old(queueOf) && pending == old(pending) && closed == old(closed)
      ensures NotifiedAllBut(before, link, left - {id})
    {
      Notify(q, id);
    }

    method MarkClosed() returns (taken: map<RequestId, ReplyQueue>)
      requires Valid()
      modifies this
      ensures Valid() && closed && queueOf == old(queueOf) && link == Do(old(link), Step.MarkClosed)
      ensures taken == old(pending) && pending == map[] && NotifiedAllBut(old(link), link, taken.Keys)
    {
      taken := pending;
      closed := true;
      pending := map[];
      Follow(Step.MarkClosed);
    }

    method Notify(q: ReplyQueue, ghost id: RequestId)
      requires Valid() && id in queueOf && q == queueOf[id] && link.requests[id].owed
      modifies this, q
      ensures Valid() && link == Do(old(link), Step.Notify(id)) && queueOf == old(queueOf)
      ensures link == old(link).(requests := old(link).requests[id := Notified(old(link).requests[id])])
      ensures pending == old(pending) && closed == old(closed)
    {
      NotifyKeepsEntries(link, id);
      SetQueue(q, q.items + [CLOSED], id, Step.Notify(id));
    }
  }

  // ---------------------------------------------------------------------
  // Which connection a bench id stands for

  datatype Dial<C> = Registered(workbench: string, connection: C) | Unregistered(workbench: string, connection: C)

  function AfterDial<C(==)>(table: map<string, C>, dial: Dial<C>): map<string, C> {
    match dial
    case Registered(id, c) => table[id := c]
    case Unregistered(id, c) => if id in table && table[id] == c then table - {id} else table
  }

  /** The table after a history of connections coming and going. */
  function Table<C(==)>(dials: seq<Dial<C>>): map<string, C> {
    if dials == [] then map[] else AfterDial(Table(dials[..|dials| - 1]), dials[|dials| - 1])
  }

  lemma OneMoreDial<C>(dials: seq<Dial<C>>, dial: Dial<C>)
    ensures Table(dials + [dial]) == AfterDial(Table(dials), dial)
  {
    assert (dials + [dial])[..|dials|] == dials;
  }

  /** At `i` this connection took the id, and nothing since took it over or gave
      it up: only the connection itself can give it up, never one it displaced. */
  ghost predicate HoldsSince<C>(dials: seq<Dial<C>>, id: string, c: C, i: int) {
    0 <= i < |dials| && dials[i] == Registered(id, c)
    && forall j | i < j < |dials| :: dials[j].workbench == id ==> dials[j].Unregistered? && dials[j].connection != c
  }

  lemma {:induction false} NewestConnectionHoldsTheId<C>(dials: seq<Dial<C>>, id: string, c: C)
    ensures (id in Table(dials) && Table(dials)[id] == c) <==> exists i :: HoldsSince(dials, id, c, i)
  {
    if dials != [] {
      var n := |dials| - 1;
      var before := dials[..n];
      NewestConnectionHoldsTheId(before, id, c);
      forall i | 0 <= i < n
        ensures HoldsSince(dials, id, c, i) <==>
                HoldsSince(before, id, c, i)
                && (dials[n].workbench == id ==> dials[n].Unregistered? && dials[n].connection != c)
      {
      }
      if exists i :: HoldsSince(before, id, c, i) {
        var i :| HoldsSince(before, id, c, i);
        assert HoldsSince(dials, id, c, i) || dials[n].workbench == id;
      }
      if dials[n] == Registered(id, c) {
        assert HoldsSince(dials, id, c, n);
      }
    }
  }

  class WorkbenchConnectionRegistry {
    var workbenches: map<string, WorkbenchConnection>
    ghost var dials: seq<Dial<WorkbenchConnection>>

    ghost predicate Valid() reads this {
      workbenches == Table(dials)
    }

    constructor ()
      ensures Valid() && workbenches == map[]
    {
      workbenches, dials := map[], [];
    }

    /** Last writer wins; a connection it displaces is closed, so its waiters are
        released. */
    method Register(id: string, connection: WorkbenchConnection)
      requires Valid()
      requires id in workbenches ==> workbenches[id].Valid()
      modifies this
      modifies if id in workbenches then {workbenches[id]} + workbenches[id].queueOf.Values else {}
      ensures Valid() && dials == old(dials) + [Registered(id, connection)]
      ensures workbenches == old(workbenches)[id := connection]
      ensures id in old(workbenches) && old(workbenches)[id] != connection ==>
                old(workbenches)[id].Valid() && old(workbenches)[id].closed
                && NotifiedAllBut(old(workbenches[id].link), old(workbenches)[id].link, {})
      ensures id in old(workbenches) && old(workbenches)[id] == connection ==>
                connection.link == old(connection.link)
    {
      var displaced := if id in workbenches then Some(workbenches[id]) else None;
      workbenches := workbenches[id := connection];
      OneMoreDial(dials, Registered(id, connection));
      dials := dials + [Registered(id, connection)];
      if displaced.Some? && displaced.value != connection {
        displaced.value.Close();
      }
    }

    method Unregister(id: string, connection: WorkbenchConnection)
      requires Valid()
      modifies this
      ensures Valid() && dials == old(dials) + [Unregistered(id, connection)]
      ensures workbenches == if id in old(workbenches) && old(workbenches)[id] == connection
                             then old(workbenches) - {id} else old(workbenches)
    {
      if id in workbenches && workbenches[id] == connection {
        workbenches := workbenches - {id};
      }
      OneMoreDial(dials, Unregistered(id, connection));
      dials := dials + [Unregistered(id, connection)];
    }
  }
}

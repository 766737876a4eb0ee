/**
 The workbench side of a chunked copy-in: a table of open transfers, each one a
 temporary file that chunks are written into at their own offset, until the
 finished file is handed to a sink and removed.

 `Table` is the state as a value and `Apply` what each request does to it;
 `TransferStore` is the object that updates it in place.
 */
module Transfers {
  import opened Common

  type TransferId(==, !new) = nat
  type TempPath(==, !new) = nat

  datatype Transfer = Transfer(destination: string, path: TempPath)

  /** One call of the sink: what it was given, and for which transfer. */
  datatype Delivery = Delivery(id: TransferId, destination: string, content: Bytes)

  datatype Table = Table(
    transfers: map<TransferId, Transfer>,
    disk: map<TempPath, Bytes>,
    sunk: seq<Delivery>)
  {
    /** Every open transfer has its own temporary file on disk. */
    ghost predicate Valid() {
      && (forall id | id in transfers :: transfers[id].path in disk)
      && (forall id, other | id in transfers && other in transfers && id != other ::
            transfers[id].path != transfers[other].path)
    }

    /** No temporary file without an open transfer. */
    ghost predicate NoOrphans() {
      forall path | path in disk :: exists id :: id in transfers && transfers[id].path == path
    }

    predicate Holds(id: TransferId) {
      id in transfers && transfers[id].path in disk
    }

    function Content(id: TransferId): Bytes
      requires Holds(id)
    {
      disk[transfers[id].path]
    }
  }

  function Zeros(n: nat): Bytes {
    seq(n, _ => 0 as Byte)
  }

  /** Positioned write: bytes past the old end are zero-filled, and writing
      nothing never grows the file. */
  function WriteAt(file: Bytes, offset: nat, data: Bytes): (r: Bytes)
    ensures data == [] ==> r == file
    ensures data != [] ==> |r| == Max(|file|, offset + |data|)
    ensures forall k | 0 <= k < |r| ::
              r[k] == if offset <= k < offset + |data| then data[k - offset]
                      else if k < |file| then file[k] else 0
  {
    if data == [] then file else
    var padded := if |file| < offset then file + Zeros(offset - |file|) else file;
    padded[..offset] + data + (if offset + |data| < |padded| then padded[offset + |data|..] else [])
  }

  datatype Op =
    | Open(id: TransferId, path: TempPath, destination: string)
    | Write(id: TransferId, offset: nat, data: Bytes)
    | Deliver(id: TransferId, closes: bool)
    | Abort(id: TransferId)
    | AbortAll

  /** What uuid4 and mkstemp promise of the names an `Open` comes with. */
  predicate FreshNames(t: Table, op: Op) {
    op.Open? ==> op.id !in t.transfers && op.path !in t.disk
  }

  /** The request finds its transfer; otherwise it is answered with an error. */
  predicate Found(t: Table, op: Op) {
    (op.Write? || op.Deliver?) ==> op.id in t.transfers
  }

  /** The temporary files of some open transfers. */
  function PathsOf(open: map<TransferId, Transfer>, ids: set<TransferId>): set<TempPath> {
    set id | id in ids && id in open :: open[id].path
  }

  lemma OneMorePath(open: map<TransferId, Transfer>, left: set<TransferId>, id: TransferId)
    requires id in left && left <= open.Keys
    ensures PathsOf(open, open.Keys - (left - {id})) == PathsOf(open, open.Keys - left) + {open[id].path}
  {
  }

  function Apply(t: Table, op: Op): (r: Table)
    requires t.Valid()
    ensures FreshNames(t, op) ==> r.Valid()
  {
    match op
    case Open(id, path, destination) =>
      t.(transfers := t.transfers[id := Transfer(destination, path)], disk := t.disk[path := []])
    case Write(id, offset, data) =>
      if id !in t.transfers then t else
      var path := t.transfers[id].path;
      t.(disk := t.disk[path := WriteAt(t.disk[path], offset, data)])
    case Deliver(id, closes) =>
      if id !in t.transfers then t else
      var transfer := t.transfers[id];
      if closes then
        Table(t.transfers - {id}, t.disk - {transfer.path},
              t.sunk + [Delivery(id, transfer.destination, t.disk[transfer.path])])
      else
        t.(transfers := t.transfers - {id})
    case Abort(id) =>
      if id !in t.transfers then t
      else t.(transfers := t.transfers - {id}, disk := t.disk - {t.transfers[id].path})
    case AbortAll =>
      t.(transfers := map[], disk := t.disk - PathsOf(t.transfers, t.transfers.Keys))
  }

  /** Apart from these, no transfer and no file is another one. */
  ghost predicate SameBut(t: Table, t': Table, ids: set<TransferId>, paths: set<TempPath>) {
    && (forall id | id !in ids :: id in t'.transfers <==> id in t.transfers)
    && (forall id | id in t.transfers && id !in ids :: t'.transfers[id] == t.transfers[id])
    && (forall path | path !in paths :: path in t'.disk <==> path in t.disk)
    && (forall path | path in t.disk && path !in paths :: t'.disk[path] == t.disk[path])
  }

  /** A delivery forgets the handle and, when the file can be closed, gives the sink
      the whole of it for its destination and removes it. */
  ghost predicate Delivered(t: Table, id: TransferId, closes: bool, t': Table)
    requires t.Holds(id)
  {
    var path := t.transfers[id].path;
    && id !in t'.transfers && SameBut(t, t', {id}, {path})
    && (closes ==> path !in t'.disk && t'.sunk == t.sunk + [Delivery(id, t.transfers[id].destination, t.Content(id))])
    && (!closes ==> path in t'.disk && t'.disk[path] == t.disk[path] && t'.sunk == t.sunk)
  }

  /** The transfer and its file are gone. */
  ghost predicate Dropped(t: Table, id: TransferId, t': Table)
    requires t.Holds(id)
  {
    id !in t'.transfers && t.transfers[id].path !in t'.disk && t'.sunk == t.sunk
    && SameBut(t, t', {id}, {t.transfers[id].path})
  }

  /** Every transfer and its file are gone, and no other file is. */
  ghost predicate AllDropped(t: Table, t': Table)
    requires t.Valid()
  {
    && t'.transfers == map[] && t'.sunk == t.sunk
    && (forall id | id in t.transfers :: t.transfers[id].path !in t'.disk)
    && (forall path | path in t'.disk :: path in t.disk && t'.disk[path] == t.disk[path])
    && (forall path | path in t.disk && path !in t'.disk ::
          exists id :: id in t.transfers && t.transfers[id].path == path)
    && (t.NoOrphans() ==> t'.disk == map[])
  }

  /** What each request promises of the tables before and after it. */
  ghost predicate Does(t: Table, op: Op, t': Table)
    requires t.Valid() && FreshNames(t, op)
  {
    if !op.Open? && !op.AbortAll? && op.id !in t.transfers then t' == t else
    match op
    case Open(id, path, destination) =>
      && t'.Holds(id) && t'.transfers[id] == Transfer(destination, path) && t'.Content(id) == []
      && t'.sunk == t.sunk && SameBut(t, t', {id}, {path})
    case Write(id, offset, data) =>
      && t'.Holds(id) && t'.transfers[id] == t.transfers[id] && t'.Content(id) == WriteAt(t.Content(id), offset, data)
      && t'.sunk == t.sunk && SameBut(t, t', {id}, {t.transfers[id].path})
    case Deliver(id, closes) => Delivered(t, id, closes, t')
    case Abort(id) => Dropped(t, id, t')
    case AbortAll => AllDropped(t, t')
  }

  lemma AbortAllDrops(t: Table)
    requires t.Valid()
    ensures AllDropped(t, Apply(t, AbortAll))
  {
    var t' := Apply(t, AbortAll);
    forall path | path in t.disk && path !in t'.disk
      ensures exists id :: id in t.transfers && t.transfers[id].path == path
    {
      assert path in PathsOf(t.transfers, t.transfers.Keys);
    }
    assert t.NoOrphans() ==> t'.disk.Keys == {};
  }

  lemma ApplyDoes(t: Table, op: Op)
    requires t.Valid() && FreshNames(t, op)
    ensures Does(t, op, Apply(t, op))
  {
    if op.AbortAll? { AbortAllDrops(t); }
  }

  /** Those promises leave no choice: they hold of the table a request makes, and of no
      other one. */
  lemma DoesIsApply(t: Table, op: Op, t': Table)
    requires t.Valid() && FreshNames(t, op)
    ensures Does(t, op, t') <==> t' == Apply(t, op)
  {
    ApplyDoes(t, op);
    if Does(t, op, t') {
      SameTable(t, op, t', Apply(t, op));
    }
  }

  lemma SameTransfers(t: Table, a: Table, b: Table, id: TransferId, paths: set<TempPath>)
    requires SameBut(t, a, {id}, paths) && SameBut(t, b, {id}, paths)
    requires (id in a.transfers <==> id in b.transfers) && (id in a.transfers ==> a.transfers[id] == b.transfers[id])
    ensures a.transfers == b.transfers
  {
  }

  lemma SameFiles(t: Table, a: Table, b: Table, ids: set<TransferId>, path: TempPath)
    requires SameBut(t, a, ids, {path}) && SameBut(t, b, ids, {path})
    requires (path in a.disk <==> path in b.disk) && (path in a.disk ==> a.disk[path] == b.disk[path])
    ensures a.disk == b.disk
  {
  }

  lemma SameTable(t: Table, op: Op, a: Table, b: Table)
    requires t.Valid() && FreshNames(t, op) && Does(t, op, a) && Does(t, op, b)
    ensures a == b
  {
    match op
    case AbortAll => SameDisk(t, a, b);
    case Open(id, path, _) =>
      SameTransfers(t, a, b, id, {path});
      SameFiles(t, a, b, {id}, path);
    case _ =>
      if op.id in t.transfers {
        SameTransfers(t, a, b, op.id, {t.transfers[op.id].path});
        SameFiles(t, a, b, {op.id}, t.transfers[op.id].path);
      }
  }

  lemma SameDisk(t: Table, a: Table, b: Table)
    requires t.Valid() && AllDropped(t, a) && AllDropped(t, b)
    ensures a == b
  {
    forall path ensures path in a.disk <==> path in b.disk {
      if path in a.disk && path !in b.disk { assert false; }
      if path in b.disk && path !in a.disk { assert false; }
    }
  }

  /** Nothing leaks: a request leaves an orphaned temporary file behind exactly
      when it is a delivery whose close of the file fails. */
  lemma OrphansOnlyFromAFailedClose(t: Table, op: Op)
    requires t.Valid() && t.NoOrphans() && FreshNames(t, op)
    ensures Apply(t, op).NoOrphans() <==> !(op.Deliver? && op.id in t.transfers && !op.closes)
  {
    var t' := Apply(t, op);
    if op.Deliver? && op.id in t.transfers && !op.closes {
      var path := t.transfers[op.id].path;
      assert path in t'.disk && forall id | id in t'.transfers :: t'.transfers[id].path != path;
    } else {
      forall path | path in t'.disk
        ensures exists id :: id in t'.transfers && t'.transfers[id].path == path
      {
        if path in t.disk {
          var id :| id in t.transfers && t.transfers[id].path == path;
          assert id in t'.transfers && t'.transfers[id].path == path;
        } else {
          assert t'.transfers[op.id].path == path;
        }
      }
    }
  }

  /** A request for one transfer does not touch another one's file. */
  lemma OthersUntouched(t: Table, op: Op, id: TransferId)
    requires t.Valid() && FreshNames(t, op)
    requires !op.AbortAll? && op.id != id
    ensures id in Apply(t, op).transfers <==> id in t.transfers
    ensures id in t.transfers ==> Apply(t, op).Holds(id) && Apply(t, op).Content(id) == t.Content(id)
    ensures RunsOf(Apply(t, op).sunk, id) == RunsOf(t.sunk, id)
  {
    if op.Deliver? && op.id in t.transfers && op.closes {
      RunsOfAppend(t.sunk, Delivery(op.id, t.transfers[op.id].destination, t.disk[t.transfers[op.id].path]), id);
    }
  }

  /** One transfer's sink calls, in order. */
  function RunsOf(sunk: seq<Delivery>, id: TransferId): seq<Delivery> {
    if sunk == [] then []
    else RunsOf(sunk[..|sunk| - 1], id) + (if sunk[|sunk| - 1].id == id then [sunk[|sunk| - 1]] else [])
  }

  lemma RunsOfAppend(sunk: seq<Delivery>, d: Delivery, id: TransferId)
    ensures RunsOf(sunk + [d], id) == RunsOf(sunk, id) + (if d.id == id then [d] else [])
  {
    assert (sunk + [d])[..|sunk|] == sunk;
  }

  class TransferStore {
    var transfers: map<TransferId, Transfer>
    var disk: map<TempPath, Bytes>
    var sunk: seq<Delivery>

    ghost function View(): Table reads this {
      Table(transfers, disk, sunk)
    }

    constructor ()
      ensures View() == Table(map[], map[], []) && View().Valid() && View().NoOrphans()
    {
      transfers, disk, sunk := map[], map[], [];
    }

    method Open(destination: string, id: TransferId, path: TempPath)
      requires View().Valid() && id !in transfers && path !in disk
      modifies this
      ensures View().Valid() && View() == Apply(old(View()), Op.Open(id, path, destination))
      ensures Does(old(View()), Op.Open(id, path, destination), View())
    {
      ApplyDoes(View(), Op.Open(id, path, destination));
      disk := disk[path := []];
      transfers := transfers[id := Transfer(destination, path)];
    }

    method Write(id: TransferId, offset: nat, data: Bytes) returns (ok: bool)
      requires View().Valid()
      modifies this
      ensures ok == Found(old(View()), Op.Write(id, offset, data))
      ensures View().Valid() && View() == Apply(old(View()), Op.Write(id, offset, data))
      ensures Does(old(View()), Op.Write(id, offset, data), View())
    {
      ApplyDoes(View(), Op.Write(id, offset, data));
      if id !in transfers { return false; }
      var path := transfers[id].path;
      disk := disk[path := WriteAt(disk[path], offset, data)];
      return true;
    }

    /** `closes` says whether closing the file worked. When the sink itself
        raises, the request fails but the file is removed all the same. */
    method Deliver(id: TransferId, closes: bool, sinkWorks: bool) returns (ok: bool)
      requires View().Valid()
      modifies this
      ensures ok == (Found(old(View()), Op.Deliver(id, closes)) && closes && sinkWorks)
      ensures View().Valid() && View() == Apply(old(View()), Op.Deliver(id, closes))
      ensures Does(old(View()), Op.Deliver(id, closes), View())
    {
      ApplyDoes(View(), Op.Deliver(id, closes));
      if id !in transfers { return false; }
      var transfer := transfers[id];
      transfers := transfers - {id};
      if !closes { return false; }
      sunk := sunk + [Delivery(id, transfer.destination, disk[transfer.path])];
      disk := disk - {transfer.path};
      return sinkWorks;
    }

    method Abort(id: TransferId)
      requires View().Valid()
      modifies this
      ensures id !in transfers && (id in old(transfers) ==> old(transfers)[id].path !in disk)
      ensures View().Valid() && View() == Apply(old(View()), Op.Abort(id))
      ensures Does(old(View()), Op.Abort(id), View())
    {
      ApplyDoes(View(), Op.Abort(id));
      if id in transfers {
        disk := disk - {transfers[id].path};
        transfers := transfers - {id};
      }
    }

    method AbortAll()
      requires View().Valid()
      modifies this
      ensures transfers == map[] && AllDropped(old(View()), View())
      ensures View().Valid() && View() == Apply(old(View()), Op.AbortAll)
    {
      var open := transfers;
      transfers := map[];
      var left := open.Keys;
      while left != {}
        invariant left <= open.Keys && transfers == map[] && sunk == old(sunk)
        invariant disk == old(disk) - PathsOf(open, open.Keys - left)
      {
        var id :| id in left;
        OneMorePath(open, left, id);
        disk := disk - {open[id].path};
        left := left - {id};
      }
      assert open.Keys - left == open.Keys;
      AbortAllDrops(old(View()));
    }
  }
}

/**
  Moving stored files to the active storage while the service is running.

  The world is the asset table, the physical object stores and the processes at work: any number of
  migration batches towards one target, deletions by users and administrators, and uploads. One
  `Event` is one database statement or one storage request of one process; a process may crash
  between any two of them, a request may fail with or without having taken effect, and a local file
  is written piecemeal.
*/
module StorageMigration {
  import opened Wrappers

  type Id = nat
  type Pid = nat
  type Key = string
  type Bytes = seq<int>

  /** A collision-free checksum. */
  datatype Digest = Sha256(of: Bytes)

  datatype Driver = Local | S3 | Unknown

  datatype Location = Location(driver: Driver, bucket: string)

  /** Where the bytes really are: the local driver ignores the bucket, an empty bucket means the configured one. */
  datatype Place = Disk | Bucket(name: string) | Nowhere

  datatype Config = Config(local: bool, s3Bucket: string, maxBytes: nat, maxReadBytes: nat)

  datatype Row = Row(key: Key, loc: Location, size: nat, checksum: Option<Digest>, deleted: bool)

  /** A row as a process once read it. */
  datatype Item = Item(id: Id, row: Row)

  datatype Point =
    | Head
    | Loaded(data: Bytes)
    | Absent(data: Bytes)
    | Writing(data: Bytes, written: nat)
    | Stored(data: Bytes)
    | Switched
    | Reported

  datatype StorePoint = Putting | Creating | Cleaning

  datatype Proc =
    | Batch(todo: seq<Item>, next: nat, at: Point, migrated: seq<Id>, failed: seq<Id>, warnings: seq<Id>)
    | Removing(item: Item, marked: bool)
    | Storing(key: Key, data: Bytes, generated: bool, step: StorePoint)
    | Stopped

  /** `original` remembers the bytes each intact asset was stored with; no step reads it. */
  datatype World = World(
    rows: map<Id, Row>,
    objects: map<(Place, Key), Bytes>,
    procs: map<Pid, Proc>,
    original: map<Id, Bytes>)

  /** A request succeeds, fails without effect, or takes effect although its caller sees an error. */
  datatype Io = Ok | Refused | Lost

  datatype Event =
    | StartBatch(p: Pid, chosen: seq<Id>)
    | ReadSource(p: Pid, io: Io)
    | ReadTarget(p: Pid, io: Io)
    | Put(p: Pid, io: Io)
    | WriteMore(p: Pid, upTo: nat, io: Io)
    | Switch(p: Pid, io: Io)
    | DeleteSource(p: Pid, io: Io)
    | Report(p: Pid)
    | StartRemove(p: Pid, id: Id)
    | MarkDeleted(p: Pid, io: Io)
    | DeleteRemoved(p: Pid, io: Io)
    | StartStore(p: Pid, key: Key, data: Bytes, generated: bool)
    | PutNew(p: Pid, io: Io)
    | CreateRow(p: Pid, id: Id, io: Io)
    | CleanUp(p: Pid, io: Io)
    | Crash(p: Pid)

  function Target(c: Config): Location {
    if c.local then Location(Local, "") else Location(S3, c.s3Bucket)
  }

  function Physical(c: Config, loc: Location): Place {
    match loc.driver
    case Local => Disk
    case S3 => Bucket(if loc.bucket == "" then c.s3Bucket else loc.bucket)
    case Unknown => Nowhere
  }

  function Cell(c: Config, row: Row): (Place, Key) {
    (Physical(c, row.loc), row.key)
  }

  function TargetCell(c: Config, row: Row): (Place, Key) {
    (Physical(c, Target(c)), row.key)
  }

  predicate Pending(c: Config, w: World, id: Id) {
    id in w.rows && !w.rows[id].deleted && w.rows[id].loc != Target(c)
  }

  predicate NoDuplicates(s: seq<Id>) {
    forall i, j :: 0 <= i < j < |s| ==> s[i] != s[j]
  }

  /** What the batch query may return: pending rows, each once, at most a hundred. */
  predicate Selectable(c: Config, w: World, chosen: seq<Id>) {
    |chosen| <= 100 && NoDuplicates(chosen) && forall id :: id in chosen ==> Pending(c, w, id)
  }

  function Snapshot(w: World, chosen: seq<Id>): seq<Item>
    requires forall id :: id in chosen ==> id in w.rows
  {
    seq(|chosen|, i requires 0 <= i < |chosen| => Item(chosen[i], w.rows[chosen[i]]))
  }

  predicate BatchAt(w: World, p: Pid) {
    p in w.procs && w.procs[p].Batch? && w.procs[p].next < |w.procs[p].todo|
  }

  predicate FreshKey(w: World, key: Key) {
    && (forall id :: id in w.rows ==> w.rows[id].key != key)
    && (forall p :: p in w.procs && w.procs[p].Storing? ==> w.procs[p].key != key)
  }

  function Go(w: World, p: Pid, q: Proc): World {
    w.(procs := w.procs[p := q])
  }

  /** The catch block of the loop body. */
  function FailItem(b: Proc): Proc
    requires b.Batch? && b.next < |b.todo|
  {
    b.(failed := b.failed + [b.todo[b.next].id], next := b.next + 1, at := Head)
  }

  function Step(c: Config, w: World, e: Event): World {
    match e
    case StartBatch(p, chosen) =>
      if p in w.procs || !Selectable(c, w, chosen) then w
      else Go(w, p, Batch(Snapshot(w, chosen), 0, Head, [], [], []))
    case ReadSource(p, io) => if BatchAt(w, p) && w.procs[p].at.Head? then DoReadSource(c, w, p, io) else w
    case ReadTarget(p, io) => if BatchAt(w, p) && w.procs[p].at.Loaded? then DoReadTarget(c, w, p, io) else w
    case Put(p, io) => if BatchAt(w, p) && w.procs[p].at.Absent? then DoPut(c, w, p, io) else w
    case WriteMore(p, n, io) =>
      if BatchAt(w, p) && w.procs[p].at.Writing? && w.procs[p].at.written <= n <= |w.procs[p].at.data|
      then DoWriteMore(c, w, p, n, io) else w
    case Switch(p, io) => if BatchAt(w, p) && w.procs[p].at.Stored? then DoSwitch(c, w, p, io) else w
    case DeleteSource(p, io) => if BatchAt(w, p) && w.procs[p].at.Switched? then DoDeleteSource(c, w, p, io) else w
    case Report(p) =>
      if p in w.procs && w.procs[p].Batch? && w.procs[p].at.Head? && w.procs[p].next == |w.procs[p].todo|
      then Go(w, p, w.procs[p].(at := Reported)) else w
    case StartRemove(p, id) =>
      if p in w.procs || id !in w.rows || w.rows[id].deleted then w
      else Go(w, p, Removing(Item(id, w.rows[id]), false))
    case MarkDeleted(p, io) =>
      if p in w.procs && w.procs[p].Removing? && !w.procs[p].marked then DoMarkDeleted(c, w, p, io) else w
    case DeleteRemoved(p, io) =>
      if p in w.procs && w.procs[p].Removing? && w.procs[p].marked
      then Go(Erase(w, Cell(c, w.procs[p].item.row), io), p, Stopped) else w
    case StartStore(p, key, data, generated) =>
      if p in w.procs || !FreshKey(w, key) then w else Go(w, p, Storing(key, data, generated, Putting))
    case PutNew(p, io) =>
      if p in w.procs && w.procs[p].Storing? && w.procs[p].step.Putting? then DoPutNew(c, w, p, io) else w
    case CreateRow(p, id, io) =>
      if p in w.procs && w.procs[p].Storing? && w.procs[p].step.Creating?
      then DoCreateRow(c, w, p, id, if id in w.rows then Refused else io) else w
    case CleanUp(p, io) =>
      if p in w.procs && w.procs[p].Storing? && w.procs[p].step.Cleaning?
      then Go(Erase(w, (Physical(c, Target(c)), w.procs[p].key), io), p, Stopped) else w
    case Crash(p) => if p in w.procs then Go(w, p, Stopped) else w
  }

  /** Reading the source and checking it against the row. An unknown driver aborts the whole batch. */
  function DoReadSource(c: Config, w: World, p: Pid, io: Io): World
    requires BatchAt(w, p)
  {
    var b := w.procs[p];
    var row := b.todo[b.next].row;
    if row.loc.driver.Unknown? then Go(w, p, Stopped)
    else if io != Ok || Cell(c, row) !in w.objects then Go(w, p, FailItem(b))
    else
      var data := w.objects[Cell(c, row)];
      if |data| > c.maxReadBytes || |data| != row.size || (row.checksum.Some? && row.checksum.value != Sha256(data))
      then Go(w, p, FailItem(b))
      else Go(w, p, b.(at := Loaded(data)))
  }

  /** Looking for the object at the target: absent, already there, or in the way. */
  function DoReadTarget(c: Config, w: World, p: Pid, io: Io): World
    requires BatchAt(w, p) && w.procs[p].at.Loaded?
  {
    var b := w.procs[p];
    var data := b.at.data;
    var cell := TargetCell(c, b.todo[b.next].row);
    if io != Ok then Go(w, p, FailItem(b))
    else if cell !in w.objects then Go(w, p, b.(at := Absent(data)))
    else
      var there := w.objects[cell];
      if |there| > c.maxReadBytes || |there| != |data| || Sha256(there) != Sha256(data)
      then Go(w, p, FailItem(b))
      else Go(w, p, b.(at := Stored(data)))
  }

  /** `putBytesAt`: create-only on the local disk, where the file starts out empty; one atomic overwrite on S3. */
  function DoPut(c: Config, w: World, p: Pid, io: Io): World
    requires BatchAt(w, p) && w.procs[p].at.Absent?
  {
    var b := w.procs[p];
    var data := b.at.data;
    var cell := TargetCell(c, b.todo[b.next].row);
    if |data| == 0 || |data| > c.maxBytes || io.Refused? || (c.local && cell in w.objects) then Go(w, p, FailItem(b))
    else
      var there := if c.local then [] else data;
      var at := if c.local then Writing(data, 0) else Stored(data);
      Go(w.(objects := w.objects[cell := there]), p, if io.Ok? then b.(at := at) else FailItem(b))
  }

  /** More of the local file reaches the disk; a failing write leaves what is there. */
  function DoWriteMore(c: Config, w: World, p: Pid, n: nat, io: Io): World
    requires BatchAt(w, p) && w.procs[p].at.Writing? && n <= |w.procs[p].at.data|
  {
    var b := w.procs[p];
    var data := b.at.data;
    var cell := TargetCell(c, b.todo[b.next].row);
    var objects := if cell in w.objects then w.objects[cell := data[..n]] else w.objects;
    Go(w.(objects := objects), p,
       if io != Ok then FailItem(b) else b.(at := if n == |data| then Stored(data) else Writing(data, n)))
  }

  /** The compare-and-set on driver and bucket. */
  function DoSwitch(c: Config, w: World, p: Pid, io: Io): World
    requires BatchAt(w, p) && w.procs[p].at.Stored?
  {
    var b := w.procs[p];
    var it := b.todo[b.next];
    if io.Refused? || it.id !in w.rows || w.rows[it.id].loc != it.row.loc then Go(w, p, FailItem(b))
    else
      Go(w.(rows := w.rows[it.id := w.rows[it.id].(loc := Target(c), checksum := Some(Sha256(b.at.data)))]), p,
         if io.Ok? then b.(migrated := b.migrated + [it.id], at := Switched) else FailItem(b))
  }

  /** Deleting the source; the local driver swallows errors, S3 errors become warnings. */
  function DoDeleteSource(c: Config, w: World, p: Pid, io: Io): World
    requires BatchAt(w, p)
  {
    var b := w.procs[p];
    var it := b.todo[b.next];
    var warn := !io.Ok? && !it.row.loc.driver.Local?;
    Go(Erase(w, Cell(c, it.row), io), p,
       b.(next := b.next + 1, at := Head, warnings := if warn then b.warnings + [it.id] else b.warnings))
  }

  function Erase(w: World, cell: (Place, Key), io: Io): World {
    if io.Refused? then w else w.(objects := w.objects - {cell})
  }

  function DoMarkDeleted(c: Config, w: World, p: Pid, io: Io): World
    requires p in w.procs && w.procs[p].Removing?
  {
    var id := w.procs[p].item.id;
    if io.Refused? || id !in w.rows then Go(w, p, Stopped)
    else
      Go(w.(rows := w.rows[id := w.rows[id].(deleted := true)]), p,
         if io.Ok? then w.procs[p].(marked := true) else Stopped)
  }

  /** A failed upload is cleaned up; a failed generated file is not, its put stands outside the try block. */
  function DoPutNew(c: Config, w: World, p: Pid, io: Io): World
    requires p in w.procs && w.procs[p].Storing?
  {
    var s := w.procs[p];
    var cell := (Physical(c, Target(c)), s.key);
    var fits := 0 < |s.data| <= c.maxBytes;
    var w' := if fits && !io.Refused? then w.(objects := w.objects[cell := s.data]) else w;
    Go(w', p, if fits && io.Ok? then s.(step := Creating) else if s.generated then Stopped else s.(step := Cleaning))
  }

  /** Whenever the insert reports an error its caller goes on to delete the object, even if the row is there. */
  function DoCreateRow(c: Config, w: World, p: Pid, id: Id, io: Io): World
    requires p in w.procs && w.procs[p].Storing?
  {
    var s := w.procs[p];
    if io.Refused? then Go(w, p, s.(step := Cleaning))
    else
      Go(w.(rows := w.rows[id := Row(s.key, Target(c), |s.data|, Some(Sha256(s.data)), false)],
            original := w.original[id := s.data]), p, if io.Ok? then Stopped else s.(step := Cleaning))
  }

  function Run(c: Config, w: World, es: seq<Event>): World {
    if es == [] then w else Step(c, Run(c, w, es[..|es| - 1]), es[|es| - 1])
  }

  // ---------------------------------------------------------------- what is promised

  predicate Live(w: World, id: Id) {
    id in w.rows && id in w.original && !w.rows[id].deleted
  }

  /** Following the row's recorded location yields the asset's original bytes. */
  predicate Finds(c: Config, w: World, id: Id)
    requires id in w.rows && id in w.original
  {
    Cell(c, w.rows[id]) in w.objects && w.objects[Cell(c, w.rows[id])] == w.original[id]
  }

  ghost predicate NothingLost(c: Config, w: World) {
    forall id :: Live(w, id) ==> Finds(c, w, id)
  }

  /** The row is recorded elsewhere although its bytes already sit where the target would put them. */
  predicate Aliased(c: Config, row: Row) {
    row.loc != Target(c) && Physical(c, row.loc) == Physical(c, Target(c))
  }

  // ---------------------------------------------------------------- the invariant

  ghost predicate RowOk(c: Config, w: World, id: Id) {
    Live(w, id) ==> Finds(c, w, id) && !Aliased(c, w.rows[id])
  }

  ghost predicate ItemOk(c: Config, w: World, it: Item) {
    && it.id in w.rows && it.row.key == w.rows[it.id].key && it.row.loc != Target(c)
    && (Live(w, it.id) ==>
          && Physical(c, it.row.loc) != Physical(c, Target(c))
          && (w.rows[it.id].loc == it.row.loc || w.rows[it.id].loc == Target(c))
          && (Cell(c, it.row) in w.objects ==> w.objects[Cell(c, it.row)] == w.original[it.id]))
  }

  ghost predicate PointOk(c: Config, w: World, it: Item, at: Point)
    requires it.id in w.rows
  {
    && (at.Switched? ==> w.rows[it.id].loc == Target(c))
    && (at.Writing? ==> c.local && at.written <= |at.data|)
    && (Live(w, it.id) ==>
          && (at.Loaded? || at.Absent? || at.Writing? || at.Stored? ==> at.data == w.original[it.id])
          && (at.Writing? ==>
                TargetCell(c, it.row) in w.objects && w.objects[TargetCell(c, it.row)] == at.data[..at.written])
          && (at.Stored? ==>
                TargetCell(c, it.row) in w.objects && w.objects[TargetCell(c, it.row)] == at.data))
  }

  ghost predicate ProcOk(c: Config, w: World, q: Proc) {
    match q
    case Batch(todo, next, at, _, _, _) =>
      && (forall i :: next <= i < |todo| ==> ItemOk(c, w, todo[i]))
      && (next < |todo| ==> PointOk(c, w, todo[next], at))
    case Removing(item, marked) =>
      item.id in w.rows && item.row.key == w.rows[item.id].key && (marked ==> w.rows[item.id].deleted)
    case Storing(key, data, _, step) =>
      && (!step.Cleaning? ==> forall id :: id in w.rows ==> w.rows[id].key != key)
      && (step.Creating? ==> (Physical(c, Target(c)), key) in w.objects && w.objects[(Physical(c, Target(c)), key)] == data)
    case Stopped => true
  }

  predicate IsWriting(w: World, p: Pid, id: Id) {
    BatchAt(w, p) && w.procs[p].at.Writing? && w.procs[p].todo[w.procs[p].next].id == id
  }

  /** No two processes write one live asset's file, or store under one key. */
  ghost predicate Apart(w: World, p: Pid, q: Pid)
    requires p in w.procs && q in w.procs && p != q
  {
    && (forall id :: Live(w, id) && IsWriting(w, p, id) ==> !IsWriting(w, q, id))
    && (w.procs[p].Storing? && w.procs[q].Storing? ==> w.procs[p].key != w.procs[q].key)
  }

  ghost predicate KeysUnique(w: World) {
    forall i, j :: i in w.rows && j in w.rows && i != j ==> w.rows[i].key != w.rows[j].key
  }

  ghost predicate Inv(c: Config, w: World) {
    && KeysUnique(w)
    && w.original.Keys <= w.rows.Keys
    && (forall id :: RowOk(c, w, id))
    && (forall p :: p in w.procs ==> ProcOk(c, w, w.procs[p]))
    && (forall p, q :: p in w.procs && q in w.procs && p != q ==> Apart(w, p, q))
  }

  // ---------------------------------------------------------------- what one step leaves alone

  /** The cells of live asset `id` seen by the other processes: sources only disappear, the target is never spoilt. */
  ghost predicate CellsOk(c: Config, w: World, w': World, p: Pid, id: Id)
    requires id in w.rows && id in w'.rows && id in w.original
  {
    var k := w.rows[id].key;
    var t := Physical(c, Target(c));
    && (forall pl :: pl != t && (pl, k) in w'.objects ==> (pl, k) in w.objects && w'.objects[(pl, k)] == w.objects[(pl, k)])
    && ((t, k) in w.objects ==>
          && (t, k) in w'.objects
          && (w.objects[(t, k)] == w.original[id] ==> w'.objects[(t, k)] == w.original[id])
          && (w'.objects[(t, k)] == w.objects[(t, k)] || forall q :: q != p ==> !IsWriting(w, q, id)))
    && (w'.rows[id].loc != Target(c) ==> (Physical(c, w'.rows[id].loc), k) in w'.objects)
    && (w'.rows[id].loc == Target(c) && w.rows[id].loc != Target(c) ==>
          (t, k) in w.objects && w.objects[(t, k)] == w.original[id])
  }

  ghost predicate RowsGrow(c: Config, w: World, w': World) {
    forall id :: id in w.rows ==>
      && id in w'.rows
      && w'.rows[id].key == w.rows[id].key
      && (w.rows[id].deleted ==> w'.rows[id].deleted)
      && (w'.rows[id].loc == w.rows[id].loc || w'.rows[id].loc == Target(c))
  }

  /** A step of `p` as everybody else sees it. */
  ghost predicate Benign(c: Config, w: World, w': World, p: Pid) {
    && RowsGrow(c, w, w')
    && (forall id :: id in w.original ==> id in w'.original && w'.original[id] == w.original[id])
    && (forall id :: id in w.rows && id in w'.original ==> id in w.original)
    && (forall id :: Live(w, id) && Live(w', id) ==> CellsOk(c, w, w', p, id))
    && (forall q :: q != p ==> (q in w.procs <==> q in w'.procs))
    && (forall q :: q != p && q in w.procs ==> w'.procs[q] == w.procs[q])
    && p in w'.procs
  }

  lemma ItemKept(c: Config, w: World, w': World, p: Pid, it: Item)
    requires Benign(c, w, w', p) && ItemOk(c, w, it)
    ensures ItemOk(c, w', it)
  {
  }

  lemma PointKept(c: Config, w: World, w': World, p: Pid, q: Pid)
    requires Benign(c, w, w', p) && q != p && BatchAt(w, q)
    requires ItemOk(c, w, w.procs[q].todo[w.procs[q].next])
    requires PointOk(c, w, w.procs[q].todo[w.procs[q].next], w.procs[q].at)
    ensures w.procs[q].todo[w.procs[q].next].id in w'.rows
    ensures PointOk(c, w', w.procs[q].todo[w.procs[q].next], w.procs[q].at)
  {
    var id := w.procs[q].todo[w.procs[q].next].id;
    if Live(w', id) && w.procs[q].at.Writing? {
      assert IsWriting(w, q, id);
    }
  }

  /** Processes that store under other keys do not notice either. */
  ghost predicate StoringKept(c: Config, w: World, w': World, p: Pid) {
    forall q :: q != p && q in w.procs && w.procs[q].Storing? ==> ProcOk(c, w', w.procs[q])
  }

  lemma OthersKept(c: Config, w: World, w': World, p: Pid)
    requires Inv(c, w) && Benign(c, w, w', p) && StoringKept(c, w, w', p)
    ensures forall q :: q != p && q in w'.procs ==> ProcOk(c, w', w'.procs[q])
  {
    forall q | q != p && q in w'.procs ensures ProcOk(c, w', w'.procs[q]) {
      assert ProcOk(c, w, w.procs[q]);
      if w.procs[q].Batch? {
        var b := w.procs[q];
        forall i | b.next <= i < |b.todo| ensures ItemOk(c, w', b.todo[i]) {
          ItemKept(c, w, w', p, b.todo[i]);
        }
        if b.next < |b.todo| {
          PointKept(c, w, w', p, q);
        }
      }
    }
  }

  lemma RowKept(c: Config, w: World, w': World, p: Pid, id: Id)
    requires Inv(c, w) && Benign(c, w, w', p) && id in w.rows
    ensures RowOk(c, w', id)
  {
    assert RowOk(c, w, id);
  }

  ghost predicate ApartFromOthers(w: World, p: Pid)
    requires p in w.procs
  {
    forall q :: q in w.procs && q != p ==> Apart(w, p, q)
  }

  lemma PairsKept(c: Config, w: World, w': World, p: Pid)
    requires Inv(c, w) && Benign(c, w, w', p) && ApartFromOthers(w', p)
    ensures forall q, r :: q in w'.procs && r in w'.procs && q != r ==> Apart(w', q, r)
  {
    forall q, r | q in w'.procs && r in w'.procs && q != r ensures Apart(w', q, r) {
      if q != p && r != p {
        assert Apart(w, q, r);
        forall id | Live(w', id) && IsWriting(w', q, id) ensures !IsWriting(w', r, id) {
          assert IsWriting(w, q, id);
          if IsWriting(w', r, id) {
            assert ProcOk(c, w, w.procs[q]);
            assert IsWriting(w, r, id);
          }
        }
      } else if r == p {
        assert Apart(w', p, q);
      }
    }
  }

  /** One step of `p`, seen from everywhere, keeps the invariant. */
  lemma BenignKeepsInv(c: Config, w: World, w': World, p: Pid)
    requires Inv(c, w) && Benign(c, w, w', p) && StoringKept(c, w, w', p)
    requires KeysUnique(w') && w'.original.Keys <= w'.rows.Keys
    requires forall id :: id in w'.rows && id !in w.rows ==> RowOk(c, w', id)
    requires ProcOk(c, w', w'.procs[p]) && ApartFromOthers(w', p)
    ensures Inv(c, w')
  {
    OthersKept(c, w, w', p);
    PairsKept(c, w, w', p);
    forall id ensures RowOk(c, w', id) {
      if id in w.rows {
        RowKept(c, w, w', p, id);
      }
    }
  }

  // ---------------------------------------------------------------- the steps keep the invariant

  /** Only the process's own frame changes. */
  lemma OwnFrameKeepsInv(c: Config, w: World, p: Pid, q: Proc)
    requires Inv(c, w) && ProcOk(c, w, q) && ApartFromOthers(Go(w, p, q), p)
    ensures Inv(c, Go(w, p, q))
  {
    var w' := Go(w, p, q);
    assert forall id :: Live(w, id) ==> RowOk(c, w, id);
    forall r | r != p && r in w.procs && w.procs[r].Storing? ensures ProcOk(c, w', w.procs[r]) {
      assert ProcOk(c, w, w.procs[r]);
    }
    OwnFrameIsOk(c, w, p, q);
    BenignKeepsInv(c, w, w', p);
  }

  lemma OwnFrameIsOk(c: Config, w: World, p: Pid, q: Proc)
    requires ProcOk(c, w, q)
    ensures ProcOk(c, Go(w, p, q), q)
  {
    var w' := Go(w, p, q);
    if q.Batch? {
      forall i | q.next <= i < |q.todo| ensures ItemOk(c, w', q.todo[i]) {
        assert ItemOk(c, w, q.todo[i]);
      }
    }
  }

  lemma FailItemOk(c: Config, w: World, b: Proc)
    requires b.Batch? && b.next < |b.todo| && !b.at.Switched? && ProcOk(c, w, b)
    ensures ProcOk(c, w, FailItem(b))
  {
  }

  /** A batch that does not start writing stays apart from the others. */
  lemma StillApart(c: Config, w: World, w': World, p: Pid)
    requires Inv(c, w) && p in w.procs && p in w'.procs && w.procs[p].Batch? && w'.procs[p].Batch?
    requires forall q :: q != p ==> (q in w.procs <==> q in w'.procs)
    requires forall q :: q != p && q in w.procs ==> w'.procs[q] == w.procs[q]
    requires forall id :: id in w.rows && Live(w', id) ==> Live(w, id)
    requires forall id :: IsWriting(w', p, id) ==> IsWriting(w, p, id) && id in w.rows
    ensures ApartFromOthers(w', p)
  {
    forall q | q in w'.procs && q != p ensures Apart(w', p, q) {
      assert Apart(w, p, q);
    }
  }

  lemma BatchFrameKeepsInv(c: Config, w: World, p: Pid, b: Proc)
    requires Inv(c, w) && p in w.procs && w.procs[p].Batch? && b.Batch? && ProcOk(c, w, b)
    requires !b.at.Writing?
    ensures Inv(c, Go(w, p, b))
  {
    StillApart(c, w, Go(w, p, b), p);
    OwnFrameKeepsInv(c, w, p, b);
  }

  lemma StoppedKeepsInv(c: Config, w: World, p: Pid)
    requires Inv(c, w)
    ensures Inv(c, Go(w, p, Stopped))
  {
    OwnFrameKeepsInv(c, w, p, Stopped);
  }

  lemma StartBatchKeepsInv(c: Config, w: World, p: Pid, chosen: seq<Id>)
    requires Inv(c, w) && p !in w.procs && Selectable(c, w, chosen)
    ensures Inv(c, Step(c, w, StartBatch(p, chosen)))
  {
    var b := Batch(Snapshot(w, chosen), 0, Head, [], [], []);
    forall i | 0 <= i < |chosen| ensures ItemOk(c, w, b.todo[i]) {
      assert chosen[i] in chosen;
      assert RowOk(c, w, chosen[i]);
    }
    OwnFrameKeepsInv(c, w, p, b);
  }

  lemma ReadSourceKeepsInv(c: Config, w: World, p: Pid, io: Io)
    requires Inv(c, w) && BatchAt(w, p) && w.procs[p].at.Head?
    ensures Inv(c, DoReadSource(c, w, p, io))
  {
    var b := w.procs[p];
    assert ProcOk(c, w, b) && ItemOk(c, w, b.todo[b.next]);
    FailItemOk(c, w, b);
    if b.todo[b.next].row.loc.driver.Unknown? {
      StoppedKeepsInv(c, w, p);
    } else {
      BatchFrameKeepsInv(c, w, p, DoReadSource(c, w, p, io).procs[p]);
    }
  }

  lemma ReadTargetKeepsInv(c: Config, w: World, p: Pid, io: Io)
    requires Inv(c, w) && BatchAt(w, p) && w.procs[p].at.Loaded?
    ensures Inv(c, DoReadTarget(c, w, p, io))
  {
    var b := w.procs[p];
    assert ProcOk(c, w, b) && ItemOk(c, w, b.todo[b.next]);
    FailItemOk(c, w, b);
    BatchFrameKeepsInv(c, w, p, DoReadTarget(c, w, p, io).procs[p]);
  }

  /** Files are written piecemeal on the local disk only. */
  lemma NoWriterOnS3(c: Config, w: World, q: Pid, id: Id)
    requires Inv(c, w) && !c.local
    ensures !IsWriting(w, q, id)
  {
    assert q in w.procs ==> ProcOk(c, w, w.procs[q]);
  }

  /** Nobody else is writing a live asset's file while `p` finds it absent, or while `p` writes it. */
  lemma SoleWriter(c: Config, w: World, p: Pid, q: Pid)
    requires Inv(c, w) && BatchAt(w, p) && q != p
    requires Live(w, w.procs[p].todo[w.procs[p].next].id)
    requires w.procs[p].at.Writing? || TargetCell(c, w.procs[p].todo[w.procs[p].next].row) !in w.objects
    ensures !IsWriting(w, q, w.procs[p].todo[w.procs[p].next].id)
  {
    var it := w.procs[p].todo[w.procs[p].next];
    assert ProcOk(c, w, w.procs[p]) && ItemOk(c, w, it);
    if q in w.procs {
      assert Apart(w, p, q) && ProcOk(c, w, w.procs[q]);
      if BatchAt(w, q) {
        assert ItemOk(c, w, w.procs[q].todo[w.procs[q].next]);
      }
    }
  }

  /** `w'` is `w` with the target cell of `p`'s current asset overwritten and `p`'s frame moved on. */
  ghost predicate WroteTarget(c: Config, w: World, w': World, p: Pid, x: Bytes)
    requires BatchAt(w, p)
  {
    && p in w'.procs
    && w' == Go(w.(objects := w.objects[TargetCell(c, w.procs[p].todo[w.procs[p].next].row) := x]), p, w'.procs[p])
  }

  lemma WriteTargetBenign(c: Config, w: World, w': World, p: Pid, x: Bytes)
    requires Inv(c, w) && BatchAt(w, p) && WroteTarget(c, w, w', p, x)
    requires var it := w.procs[p].todo[w.procs[p].next];
             Live(w, it.id) ==>
               && (forall q :: q != p ==> !IsWriting(w, q, it.id))
               && (x == w.original[it.id] || TargetCell(c, it.row) !in w.objects
                   || w.objects[TargetCell(c, it.row)] != w.original[it.id])
    ensures Benign(c, w, w', p) && StoringKept(c, w, w', p)
  {
    var it := w.procs[p].todo[w.procs[p].next];
    assert ProcOk(c, w, w.procs[p]) && ItemOk(c, w, it);
    forall id | Live(w, id) && Live(w', id) ensures CellsOk(c, w, w', p, id) {
      assert RowOk(c, w, id);
      if id != it.id {
        assert w.rows[id].key != it.row.key;
      }
    }
    forall q | q != p && q in w.procs && w.procs[q].Storing? ensures ProcOk(c, w', w.procs[q]) {
      assert ProcOk(c, w, w.procs[q]);
      assert !w.procs[q].step.Cleaning? ==> w.rows[it.id].key != w.procs[q].key;
    }
  }

  /** The rest of `p`'s frame survives a change that spoils no source. */
  lemma OwnItemsKept(c: Config, w: World, w': World, p: Pid, from: nat)
    requires Inv(c, w) && Benign(c, w, w', p) && p in w.procs && w.procs[p].Batch? && w.procs[p].next <= from
    ensures forall i :: from <= i < |w.procs[p].todo| ==> ItemOk(c, w', w.procs[p].todo[i])
  {
    assert ProcOk(c, w, w.procs[p]);
    forall i | from <= i < |w.procs[p].todo| ensures ItemOk(c, w', w.procs[p].todo[i]) {
      ItemKept(c, w, w', p, w.procs[p].todo[i]);
    }
  }

  lemma WroteTargetKeepsInv(c: Config, w: World, w': World, p: Pid, x: Bytes)
    requires Inv(c, w) && BatchAt(w, p) && WroteTarget(c, w, w', p, x)
    requires Benign(c, w, w', p) && StoringKept(c, w, w', p)
    requires w'.procs[p].Batch? && w'.procs[p].todo == w.procs[p].todo && w'.procs[p].next >= w.procs[p].next
    requires w'.procs[p].next < |w.procs[p].todo| ==>
               PointOk(c, w', w.procs[p].todo[w'.procs[p].next], w'.procs[p].at)
    requires ApartFromOthers(w', p)
    ensures Inv(c, w')
  {
    OwnItemsKept(c, w, w', p, w'.procs[p].next);
    BenignKeepsInv(c, w, w', p);
  }

  lemma PutKeepsInv(c: Config, w: World, p: Pid, io: Io)
    requires Inv(c, w) && BatchAt(w, p) && w.procs[p].at.Absent?
    ensures Inv(c, DoPut(c, w, p, io))
  {
    var b := w.procs[p];
    var it := b.todo[b.next];
    var w' := DoPut(c, w, p, io);
    assert ProcOk(c, w, b) && ItemOk(c, w, it) && PointOk(c, w, it, b.at);
    FailItemOk(c, w, b);
    if |b.at.data| == 0 || |b.at.data| > c.maxBytes || io.Refused? || (c.local && TargetCell(c, it.row) in w.objects) {
      BatchFrameKeepsInv(c, w, p, FailItem(b));
    } else {
      var x := if c.local then [] else b.at.data;
      if Live(w, it.id) {
        forall q | q != p ensures !IsWriting(w, q, it.id) {
          if c.local { SoleWriter(c, w, p, q); } else { NoWriterOnS3(c, w, q, it.id); }
        }
      }
      WriteTargetBenign(c, w, w', p, x);
      forall q | q in w'.procs && q != p ensures Apart(w', p, q) {
        assert Apart(w, p, q);
        assert forall id :: Live(w', id) ==> Live(w, id);
        assert forall id :: IsWriting(w', q, id) ==> IsWriting(w, q, id);
        assert forall id :: IsWriting(w', p, id) ==> id == it.id;
      }
      WroteTargetKeepsInv(c, w, w', p, x);
    }
  }

  lemma WriteMoreKeepsInv(c: Config, w: World, p: Pid, n: nat, io: Io)
    requires Inv(c, w) && BatchAt(w, p) && w.procs[p].at.Writing?
    requires w.procs[p].at.written <= n <= |w.procs[p].at.data|
    ensures Inv(c, DoWriteMore(c, w, p, n, io))
  {
    var b := w.procs[p];
    var it := b.todo[b.next];
    var w' := DoWriteMore(c, w, p, n, io);
    assert ProcOk(c, w, b) && ItemOk(c, w, it) && PointOk(c, w, it, b.at);
    FailItemOk(c, w, b);
    StillApart(c, w, w', p);
    if TargetCell(c, it.row) in w.objects {
      var x := b.at.data[..n];
      if Live(w, it.id) {
        forall q | q != p ensures !IsWriting(w, q, it.id) {
          SoleWriter(c, w, p, q);
        }
        if w.objects[TargetCell(c, it.row)] == w.original[it.id] {
          assert b.at.written == |b.at.data| == n;
        }
      }
      WriteTargetBenign(c, w, w', p, x);
      WroteTargetKeepsInv(c, w, w', p, x);
    } else {
      OwnFrameKeepsInv(c, w, p, w'.procs[p]);
    }
  }

  lemma SwitchKeepsInv(c: Config, w: World, p: Pid, io: Io)
    requires Inv(c, w) && BatchAt(w, p) && w.procs[p].at.Stored?
    ensures Inv(c, DoSwitch(c, w, p, io))
  {
    var b := w.procs[p];
    var it := b.todo[b.next];
    var w' := DoSwitch(c, w, p, io);
    assert ProcOk(c, w, b) && ItemOk(c, w, it) && PointOk(c, w, it, b.at);
    FailItemOk(c, w, b);
    if io.Refused? || w.rows[it.id].loc != it.row.loc {
      BatchFrameKeepsInv(c, w, p, FailItem(b));
    } else {
      SwitchBenign(c, w, p, io);
      OwnItemsKept(c, w, w', p, w'.procs[p].next);
      SwitchStaysApart(c, w, p, io);
      BenignKeepsInv(c, w, w', p);
    }
  }

  lemma SwitchStaysApart(c: Config, w: World, p: Pid, io: Io)
    requires Inv(c, w) && BatchAt(w, p) && w.procs[p].at.Stored? && !io.Refused?
    requires w.procs[p].todo[w.procs[p].next].id in w.rows
    requires w.rows[w.procs[p].todo[w.procs[p].next].id].loc == w.procs[p].todo[w.procs[p].next].row.loc
    ensures ApartFromOthers(DoSwitch(c, w, p, io), p)
  {
    var b := w.procs[p];
    var it := b.todo[b.next];
    var w' := DoSwitch(c, w, p, io);
    assert ProcOk(c, w, b) && ItemOk(c, w, it) && PointOk(c, w, it, b.at);
    forall q | q in w'.procs && q != p ensures Apart(w', p, q) {
      assert Apart(w, p, q);
      assert forall id :: Live(w', id) ==> Live(w, id);
      assert forall id :: !IsWriting(w', p, id);
    }
  }

  lemma SwitchBenign(c: Config, w: World, p: Pid, io: Io)
    requires Inv(c, w) && BatchAt(w, p) && w.procs[p].at.Stored? && !io.Refused?
    requires w.procs[p].todo[w.procs[p].next].id in w.rows
    requires w.rows[w.procs[p].todo[w.procs[p].next].id].loc == w.procs[p].todo[w.procs[p].next].row.loc
    ensures Benign(c, w, DoSwitch(c, w, p, io), p) && StoringKept(c, w, DoSwitch(c, w, p, io), p)
    ensures KeysUnique(DoSwitch(c, w, p, io))
  {
    var w' := DoSwitch(c, w, p, io);
    var b := w.procs[p];
    assert ProcOk(c, w, b) && ItemOk(c, w, b.todo[b.next]) && PointOk(c, w, b.todo[b.next], b.at);
    forall id | Live(w, id) && Live(w', id) ensures CellsOk(c, w, w', p, id) {
      assert RowOk(c, w, id);
    }
    forall q | q != p && q in w.procs && w.procs[q].Storing? ensures ProcOk(c, w', w.procs[q]) {
      assert ProcOk(c, w, w.procs[q]);
    }
  }

  /** `w'` is `w` with the object at `cell` erased, or possibly kept, and `p`'s frame moved on. */
  ghost predicate Erased(w: World, w': World, p: Pid, cell: (Place, Key), io: Io) {
    p in w.procs && p in w'.procs && w' == Go(Erase(w, cell, io), p, w'.procs[p])
  }

  /** Erasing a cell that no live asset needs. */
  lemma EraseBenign(c: Config, w: World, w': World, p: Pid, pl: Place, key: Key, io: Io)
    requires Inv(c, w) && Erased(w, w', p, (pl, key), io)
    requires forall id :: Live(w, id) && w.rows[id].key == key ==>
               pl != Physical(c, Target(c)) && w.rows[id].loc == Target(c)
    requires forall q :: q != p && q in w.procs && w.procs[q].Storing? && !w.procs[q].step.Cleaning? ==> w.procs[q].key != key
    ensures Benign(c, w, w', p) && StoringKept(c, w, w', p)
  {
    forall id | Live(w, id) && Live(w', id) ensures CellsOk(c, w, w', p, id) {
      assert RowOk(c, w, id);
    }
    forall q | q != p && q in w.procs && w.procs[q].Storing? ensures ProcOk(c, w', w.procs[q]) {
      assert ProcOk(c, w, w.procs[q]);
    }
  }

  /** A key belongs to no row until its process tries to create one. */
  lemma KeyNotStored(c: Config, w: World, id: Id, q: Pid)
    requires Inv(c, w) && id in w.rows && q in w.procs && w.procs[q].Storing? && !w.procs[q].step.Cleaning?
    ensures w.procs[q].key != w.rows[id].key
  {
    assert ProcOk(c, w, w.procs[q]);
  }

  lemma DeleteSourceKeepsInv(c: Config, w: World, p: Pid, io: Io)
    requires Inv(c, w) && BatchAt(w, p) && w.procs[p].at.Switched?
    ensures Inv(c, DoDeleteSource(c, w, p, io))
  {
    var b := w.procs[p];
    var it := b.todo[b.next];
    var w' := DoDeleteSource(c, w, p, io);
    assert ProcOk(c, w, b) && ItemOk(c, w, it) && PointOk(c, w, it, b.at);
    forall q | q != p && q in w.procs && w.procs[q].Storing? && !w.procs[q].step.Cleaning? ensures w.procs[q].key != it.row.key {
      KeyNotStored(c, w, it.id, q);
    }
    EraseBenign(c, w, w', p, Cell(c, it.row).0, it.row.key, io);
    OwnItemsKept(c, w, w', p, b.next + 1);
    StillApart(c, w, w', p);
    BenignKeepsInv(c, w, w', p);
  }

  /** A process that is no batch, or no longer one, has nothing to be kept apart from but store keys. */
  lemma ApartWhenNoBatch(w: World, w': World, p: Pid)
    requires p in w'.procs && !w'.procs[p].Batch?
    requires forall q :: q in w'.procs && q != p && w'.procs[p].Storing? && w'.procs[q].Storing? ==>
               w'.procs[p].key != w'.procs[q].key
    ensures ApartFromOthers(w', p)
  {
  }

  lemma StartRemoveKeepsInv(c: Config, w: World, p: Pid, id: Id)
    requires Inv(c, w) && p !in w.procs && id in w.rows
    ensures Inv(c, Go(w, p, Removing(Item(id, w.rows[id]), false)))
  {
    OwnFrameKeepsInv(c, w, p, Removing(Item(id, w.rows[id]), false));
  }

  lemma MarkDeletedBenign(c: Config, w: World, p: Pid, io: Io)
    requires Inv(c, w) && p in w.procs && w.procs[p].Removing? && w.procs[p].item.id in w.rows && !io.Refused?
    ensures Benign(c, w, DoMarkDeleted(c, w, p, io), p) && StoringKept(c, w, DoMarkDeleted(c, w, p, io), p)
  {
    var w' := DoMarkDeleted(c, w, p, io);
    forall id | Live(w, id) && Live(w', id) ensures CellsOk(c, w, w', p, id) {
      assert RowOk(c, w, id);
    }
    forall q | q != p && q in w.procs && w.procs[q].Storing? ensures ProcOk(c, w', w.procs[q]) {
      assert ProcOk(c, w, w.procs[q]);
    }
  }

  lemma MarkDeletedKeepsInv(c: Config, w: World, p: Pid, io: Io)
    requires Inv(c, w) && p in w.procs && w.procs[p].Removing?
    ensures Inv(c, DoMarkDeleted(c, w, p, io))
  {
    assert ProcOk(c, w, w.procs[p]);
    if io.Refused? {
      StoppedKeepsInv(c, w, p);
    } else {
      var w' := DoMarkDeleted(c, w, p, io);
      MarkDeletedBenign(c, w, p, io);
      ApartWhenNoBatch(w, w', p);
      BenignKeepsInv(c, w, w', p);
    }
  }

  lemma DeleteRemovedKeepsInv(c: Config, w: World, p: Pid, io: Io)
    requires Inv(c, w) && p in w.procs && w.procs[p].Removing? && w.procs[p].marked
    ensures Inv(c, Step(c, w, DeleteRemoved(p, io)))
  {
    var it := w.procs[p].item;
    assert ProcOk(c, w, w.procs[p]);
    forall q | q != p && q in w.procs && w.procs[q].Storing? && !w.procs[q].step.Cleaning? ensures w.procs[q].key != it.row.key {
      KeyNotStored(c, w, it.id, q);
    }
    var w' := Step(c, w, DeleteRemoved(p, io));
    EraseBenign(c, w, w', p, Cell(c, it.row).0, it.row.key, io);
    BenignKeepsInv(c, w, w', p);
  }

  lemma StartStoreKeepsInv(c: Config, w: World, p: Pid, key: Key, data: Bytes, generated: bool)
    requires Inv(c, w) && p !in w.procs && FreshKey(w, key)
    ensures Inv(c, Go(w, p, Storing(key, data, generated, Putting)))
  {
    OwnFrameKeepsInv(c, w, p, Storing(key, data, generated, Putting));
  }

  lemma StoringApart(c: Config, w: World, p: Pid)
    requires Inv(c, w) && p in w.procs && w.procs[p].Storing?
    ensures forall q :: q in w.procs && q != p && w.procs[q].Storing? ==> w.procs[q].key != w.procs[p].key
    ensures !w.procs[p].step.Cleaning? ==> forall id :: id in w.rows ==> w.rows[id].key != w.procs[p].key
  {
    assert ProcOk(c, w, w.procs[p]);
    forall q | q in w.procs && q != p && w.procs[q].Storing? ensures w.procs[q].key != w.procs[p].key {
      assert Apart(w, p, q);
    }
  }

  lemma PutNewBenign(c: Config, w: World, p: Pid, io: Io)
    requires Inv(c, w) && p in w.procs && w.procs[p].Storing? && w.procs[p].step.Putting?
    ensures Benign(c, w, DoPutNew(c, w, p, io), p) && StoringKept(c, w, DoPutNew(c, w, p, io), p)
  {
    var w' := DoPutNew(c, w, p, io);
    StoringApart(c, w, p);
    forall id | Live(w, id) && Live(w', id) ensures CellsOk(c, w, w', p, id) {
      assert RowOk(c, w, id);
    }
    forall q | q != p && q in w.procs && w.procs[q].Storing? ensures ProcOk(c, w', w.procs[q]) {
      assert ProcOk(c, w, w.procs[q]);
    }
  }

  lemma PutNewKeepsInv(c: Config, w: World, p: Pid, io: Io)
    requires Inv(c, w) && p in w.procs && w.procs[p].Storing? && w.procs[p].step.Putting?
    ensures Inv(c, DoPutNew(c, w, p, io))
  {
    var w' := DoPutNew(c, w, p, io);
    StoringApart(c, w, p);
    PutNewBenign(c, w, p, io);
    ApartWhenNoBatch(w, w', p);
    BenignKeepsInv(c, w, w', p);
  }

  lemma CreateRowBenign(c: Config, w: World, p: Pid, id: Id, io: Io)
    requires Inv(c, w) && p in w.procs && w.procs[p].Storing? && w.procs[p].step.Creating?
    requires id !in w.rows && !io.Refused?
    ensures Benign(c, w, DoCreateRow(c, w, p, id, io), p)
  {
    var w' := DoCreateRow(c, w, p, id, io);
    forall j | Live(w, j) && Live(w', j) ensures CellsOk(c, w, w', p, j) {
      assert RowOk(c, w, j);
    }
  }

  lemma CreateRowStoringKept(c: Config, w: World, p: Pid, id: Id, io: Io)
    requires Inv(c, w) && p in w.procs && w.procs[p].Storing? && w.procs[p].step.Creating?
    requires id !in w.rows && !io.Refused?
    ensures StoringKept(c, w, DoCreateRow(c, w, p, id, io), p)
  {
    StoringApart(c, w, p);
    var w' := DoCreateRow(c, w, p, id, io);
    forall q | q != p && q in w.procs && w.procs[q].Storing? ensures ProcOk(c, w', w.procs[q]) {
      assert ProcOk(c, w, w.procs[q]);
    }
  }

  lemma CreateRowKeepsInv(c: Config, w: World, p: Pid, id: Id, io: Io)
    requires Inv(c, w) && p in w.procs && w.procs[p].Storing? && w.procs[p].step.Creating?
    requires id in w.rows ==> io.Refused?
    ensures Inv(c, DoCreateRow(c, w, p, id, io))
  {
    if io.Refused? {
      RowRefusedKeepsInv(c, w, p, id);
    } else {
      RowCreatedKeepsInv(c, w, p, id, io);
    }
  }

  lemma RowRefusedKeepsInv(c: Config, w: World, p: Pid, id: Id)
    requires Inv(c, w) && p in w.procs && w.procs[p].Storing? && w.procs[p].step.Creating?
    ensures Inv(c, DoCreateRow(c, w, p, id, Refused))
  {
    var w' := DoCreateRow(c, w, p, id, Refused);
    assert ProcOk(c, w, w.procs[p]);
    StoringApart(c, w, p);
    ApartWhenNoBatch(w, w', p);
    OwnFrameKeepsInv(c, w, p, w'.procs[p]);
  }

  lemma RowCreatedKeepsInv(c: Config, w: World, p: Pid, id: Id, io: Io)
    requires Inv(c, w) && p in w.procs && w.procs[p].Storing? && w.procs[p].step.Creating?
    requires id !in w.rows && !io.Refused?
    ensures Inv(c, DoCreateRow(c, w, p, id, io))
  {
    var w' := DoCreateRow(c, w, p, id, io);
    assert ProcOk(c, w, w.procs[p]);
    StoringApart(c, w, p);
    ApartWhenNoBatch(w, w', p);
    CreateRowBenign(c, w, p, id, io);
    CreateRowStoringKept(c, w, p, id, io);
    BenignKeepsInv(c, w, w', p);
  }

  /** The caller of a lost insert deletes the object of the row that is there after all. */
  predicate Revokes(w: World, e: Event, id: Id) {
    && e.CleanUp? && !e.io.Refused?
    && e.p in w.procs && w.procs[e.p].Storing? && w.procs[e.p].step.Cleaning?
    && Live(w, id) && w.rows[id].key == w.procs[e.p].key
  }

  lemma CleanUpKeepsInv(c: Config, w: World, p: Pid, io: Io)
    requires Inv(c, w) && p in w.procs && w.procs[p].Storing? && w.procs[p].step.Cleaning?
    requires forall id :: !Revokes(w, CleanUp(p, io), id)
    ensures Inv(c, Step(c, w, CleanUp(p, io)))
  {
    if io.Refused? {
      StoppedKeepsInv(c, w, p);
    } else {
      StoringApart(c, w, p);
      var w' := Step(c, w, CleanUp(p, io));
      forall id | Live(w, id) ensures w.rows[id].key != w.procs[p].key {
        assert !Revokes(w, CleanUp(p, io), id);
      }
      EraseBenign(c, w, w', p, Physical(c, Target(c)), w.procs[p].key, io);
      BenignKeepsInv(c, w, w', p);
    }
  }

  lemma ReportKeepsInv(c: Config, w: World, p: Pid)
    requires Inv(c, w)
    ensures Inv(c, Step(c, w, Report(p)))
  {
    if Step(c, w, Report(p)) != w {
      assert ProcOk(c, w, w.procs[p]);
      BatchFrameKeepsInv(c, w, p, w.procs[p].(at := Reported));
    }
  }

  predicate ByBatch(e: Event) {
    e.StartBatch? || e.ReadSource? || e.ReadTarget? || e.Put? || e.WriteMore? || e.Switch? || e.DeleteSource? || e.Report?
  }

  lemma BatchStepKeepsInv(c: Config, w: World, e: Event)
    requires Inv(c, w) && Step(c, w, e) != w && ByBatch(e)
    ensures Inv(c, Step(c, w, e))
  {
    match e
    case StartBatch(p, chosen) => StartBatchKeepsInv(c, w, p, chosen);
    case ReadSource(p, io) => ReadSourceKeepsInv(c, w, p, io);
    case ReadTarget(p, io) => ReadTargetKeepsInv(c, w, p, io);
    case Put(p, io) => PutKeepsInv(c, w, p, io);
    case WriteMore(p, n, io) => WriteMoreKeepsInv(c, w, p, n, io);
    case Switch(p, io) => SwitchKeepsInv(c, w, p, io);
    case DeleteSource(p, io) => DeleteSourceKeepsInv(c, w, p, io);
    case Report(p) => ReportKeepsInv(c, w, p);
  }

  lemma OtherStepKeepsInv(c: Config, w: World, e: Event)
    requires Inv(c, w) && Step(c, w, e) != w && !ByBatch(e) && forall id :: !Revokes(w, e, id)
    ensures Inv(c, Step(c, w, e))
  {
    match e
    case StartRemove(p, id) => StartRemoveKeepsInv(c, w, p, id);
    case MarkDeleted(p, io) => MarkDeletedKeepsInv(c, w, p, io);
    case DeleteRemoved(p, io) => DeleteRemovedKeepsInv(c, w, p, io);
    case StartStore(p, key, data, generated) => StartStoreKeepsInv(c, w, p, key, data, generated);
    case PutNew(p, io) => PutNewKeepsInv(c, w, p, io);
    case CreateRow(p, id, io) => CreateRowKeepsInv(c, w, p, id, if id in w.rows then Refused else io);
    case CleanUp(p, io) => CleanUpKeepsInv(c, w, p, io);
    case Crash(p) => StoppedKeepsInv(c, w, p);
  }

  lemma StepKeepsInv(c: Config, w: World, e: Event)
    requires Inv(c, w) && forall id :: !Revokes(w, e, id)
    ensures Inv(c, Step(c, w, e))
  {
    if Step(c, w, e) == w {
    } else if ByBatch(e) {
      BatchStepKeepsInv(c, w, e);
    } else {
      OtherStepKeepsInv(c, w, e);
    }
  }

  // ---------------------------------------------------------------- lost inserts

  /** The same world with the bytes of some assets forgotten; no step reads them. */
  function Forget(w: World, gone: set<Id>): World {
    w.(original := w.original - gone)
  }

  lemma ForgetMore(c: Config, w: World, gone: set<Id>, more: set<Id>)
    requires Inv(c, Forget(w, gone)) && gone <= more
    ensures Inv(c, Forget(w, more))
  {
    var v, v' := Forget(w, gone), Forget(w, more);
    assert forall id :: Live(v', id) ==> Live(v, id) && v'.original[id] == v.original[id];
    forall id ensures RowOk(c, v', id) {
      assert RowOk(c, v, id);
    }
    forall p | p in v'.procs ensures ProcOk(c, v', v'.procs[p]) {
      ForgetInProc(c, w, gone, more, w.procs[p]);
    }
    forall p, q | p in v'.procs && q in v'.procs && p != q ensures Apart(v', p, q) {
      assert Apart(v, p, q);
      assert forall id :: IsWriting(v', p, id) == IsWriting(v, p, id) && IsWriting(v', q, id) == IsWriting(v, q, id);
    }
  }

  lemma ForgetInProc(c: Config, w: World, gone: set<Id>, more: set<Id>, q: Proc)
    requires ProcOk(c, Forget(w, gone), q) && gone <= more
    ensures ProcOk(c, Forget(w, more), q)
  {
    if q.Batch? {
      forall i | q.next <= i < |q.todo| ensures ItemOk(c, Forget(w, more), q.todo[i]) {
        assert ItemOk(c, Forget(w, gone), q.todo[i]);
      }
    }
  }

  lemma ReadSourceForgets(c: Config, w: World, p: Pid, io: Io, gone: set<Id>)
    requires BatchAt(w, p)
    ensures DoReadSource(c, Forget(w, gone), p, io) == Forget(DoReadSource(c, w, p, io), gone)
  {
  }

  lemma ReadTargetForgets(c: Config, w: World, p: Pid, io: Io, gone: set<Id>)
    requires BatchAt(w, p) && w.procs[p].at.Loaded?
    ensures DoReadTarget(c, Forget(w, gone), p, io) == Forget(DoReadTarget(c, w, p, io), gone)
  {
  }

  lemma CreateRowForgets(c: Config, w: World, p: Pid, id: Id, io: Io, gone: set<Id>)
    requires p in w.procs && w.procs[p].Storing? && (id !in gone || io.Refused?)
    ensures DoCreateRow(c, Forget(w, gone), p, id, io) == Forget(DoCreateRow(c, w, p, id, io), gone)
  {
    if !io.Refused? {
      assert (w.original - gone)[id := w.procs[p].data] == w.original[id := w.procs[p].data] - gone;
    }
  }

  lemma PutForgets(c: Config, w: World, p: Pid, io: Io, gone: set<Id>)
    requires BatchAt(w, p) && w.procs[p].at.Absent?
    ensures DoPut(c, Forget(w, gone), p, io) == Forget(DoPut(c, w, p, io), gone)
  {
  }

  lemma WriteMoreForgets(c: Config, w: World, p: Pid, n: nat, io: Io, gone: set<Id>)
    requires BatchAt(w, p) && w.procs[p].at.Writing? && n <= |w.procs[p].at.data|
    ensures DoWriteMore(c, Forget(w, gone), p, n, io) == Forget(DoWriteMore(c, w, p, n, io), gone)
  {
  }

  lemma SwitchForgets(c: Config, w: World, p: Pid, io: Io, gone: set<Id>)
    requires BatchAt(w, p) && w.procs[p].at.Stored?
    ensures DoSwitch(c, Forget(w, gone), p, io) == Forget(DoSwitch(c, w, p, io), gone)
  {
  }

  lemma DeleteSourceForgets(c: Config, w: World, p: Pid, io: Io, gone: set<Id>)
    requires BatchAt(w, p)
    ensures DoDeleteSource(c, Forget(w, gone), p, io) == Forget(DoDeleteSource(c, w, p, io), gone)
  {
  }

  lemma RemovingForgets(c: Config, w: World, e: Event, gone: set<Id>)
    requires e.MarkDeleted? || e.DeleteRemoved?
    ensures Step(c, Forget(w, gone), e) == Forget(Step(c, w, e), gone)
  {
  }

  lemma StoringForgets(c: Config, w: World, e: Event, gone: set<Id>)
    requires e.PutNew? || e.CleanUp?
    ensures Step(c, Forget(w, gone), e) == Forget(Step(c, w, e), gone)
  {
  }

  lemma StartForgets(c: Config, w: World, e: Event, gone: set<Id>)
    requires e.StartBatch? || e.Report?
    ensures Step(c, Forget(w, gone), e) == Forget(Step(c, w, e), gone)
  {
  }

  lemma BareForgets(c: Config, w: World, e: Event, gone: set<Id>)
    requires e.StartRemove? || e.StartStore? || e.Crash?
    ensures Step(c, Forget(w, gone), e) == Forget(Step(c, w, e), gone)
  {
  }

  /** Forgetting before a step or after it is the same. */
  lemma StepForgets(c: Config, w: World, e: Event, gone: set<Id>)
    requires gone <= w.rows.Keys
    ensures Step(c, Forget(w, gone), e) == Forget(Step(c, w, e), gone)
  {
    if e.ReadSource? {
      if BatchAt(w, e.p) {
        ReadSourceForgets(c, w, e.p, e.io, gone);
      }
    } else if e.ReadTarget? {
      if BatchAt(w, e.p) && w.procs[e.p].at.Loaded? {
        ReadTargetForgets(c, w, e.p, e.io, gone);
      }
    } else if e.Put? {
      if BatchAt(w, e.p) && w.procs[e.p].at.Absent? {
        PutForgets(c, w, e.p, e.io, gone);
      }
    } else if e.WriteMore? {
      if BatchAt(w, e.p) && w.procs[e.p].at.Writing? && e.upTo <= |w.procs[e.p].at.data| {
        WriteMoreForgets(c, w, e.p, e.upTo, e.io, gone);
      }
    } else if e.Switch? {
      if BatchAt(w, e.p) && w.procs[e.p].at.Stored? {
        SwitchForgets(c, w, e.p, e.io, gone);
      }
    } else if e.DeleteSource? {
      if BatchAt(w, e.p) {
        DeleteSourceForgets(c, w, e.p, e.io, gone);
      }
    } else if e.CreateRow? {
      if e.p in w.procs && w.procs[e.p].Storing? {
        CreateRowForgets(c, w, e.p, e.id, if e.id in w.rows then Refused else e.io, gone);
      }
    } else if e.MarkDeleted? || e.DeleteRemoved? {
      RemovingForgets(c, w, e, gone);
    } else if e.PutNew? || e.CleanUp? {
      StoringForgets(c, w, e, gone);
    } else if e.StartBatch? || e.Report? {
      StartForgets(c, w, e, gone);
    } else {
      BareForgets(c, w, e, gone);
    }
  }

  lemma SwitchGrows(c: Config, w: World, p: Pid, io: Io)
    ensures RowsGrow(c, w, Step(c, w, Switch(p, io)))
  {
  }

  /** Three kinds of events write rows. */
  lemma RowsStay(c: Config, w: World, e: Event)
    requires !e.Switch? && !e.MarkDeleted? && !e.CreateRow?
    ensures Step(c, w, e).rows == w.rows && Step(c, w, e).original == w.original
  {
    if e.ReadSource? || e.ReadTarget? || e.Put? || e.WriteMore? {
      CopyingLeavesRows(c, w, e);
    }
  }

  lemma CopyingLeavesRows(c: Config, w: World, e: Event)
    requires e.ReadSource? || e.ReadTarget? || e.Put? || e.WriteMore?
    ensures Step(c, w, e).rows == w.rows && Step(c, w, e).original == w.original
  {
  }

  lemma MarkDeletedGrows(c: Config, w: World, p: Pid, io: Io)
    ensures RowsGrow(c, w, Step(c, w, MarkDeleted(p, io)))
  {
  }

  lemma CreateRowGrows(c: Config, w: World, p: Pid, id: Id, io: Io)
    ensures RowsGrow(c, w, Step(c, w, CreateRow(p, id, io)))
  {
  }

  /** What a step never undoes. */
  lemma StepGrows(c: Config, w: World, e: Event)
    ensures RowsGrow(c, w, Step(c, w, e)) && w.rows.Keys <= Step(c, w, e).rows.Keys
  {
    if e.Switch? {
      SwitchGrows(c, w, e.p, e.io);
    } else if e.MarkDeleted? {
      MarkDeletedGrows(c, w, e.p, e.io);
    } else if e.CreateRow? {
      CreateRowGrows(c, w, e.p, e.id, e.io);
    } else {
      RowsStay(c, w, e);
    }
  }

  lemma ReadSourceLeavesFrame(c: Config, w: World, p: Pid, io: Io)
    requires BatchAt(w, p)
    ensures var w' := DoReadSource(c, w, p, io); p in w'.procs && w'.procs == w.procs[p := w'.procs[p]]
  {
  }

  lemma ReadTargetLeavesFrame(c: Config, w: World, p: Pid, io: Io)
    requires BatchAt(w, p) && w.procs[p].at.Loaded?
    ensures var w' := DoReadTarget(c, w, p, io); p in w'.procs && w'.procs == w.procs[p := w'.procs[p]]
  {
  }

  lemma PuttingLeavesFrame(c: Config, w: World, e: Event, p: Pid)
    requires e.p != p && (e.Put? || e.WriteMore?)
    ensures p in Step(c, w, e).procs <==> p in w.procs
    ensures p in w.procs ==> Step(c, w, e).procs[p] == w.procs[p]
  {
  }

  lemma SwitchingLeavesFrame(c: Config, w: World, e: Event, p: Pid)
    requires e.p != p && (e.Switch? || e.DeleteSource?)
    ensures p in Step(c, w, e).procs <==> p in w.procs
    ensures p in w.procs ==> Step(c, w, e).procs[p] == w.procs[p]
  {
  }

  /** A step of another process leaves `p`'s frame alone. */
  lemma OthersLeaveFrame(c: Config, w: World, e: Event, p: Pid)
    requires e.p != p
    ensures p in Step(c, w, e).procs <==> p in w.procs
    ensures p in w.procs ==> Step(c, w, e).procs[p] == w.procs[p]
  {
    if e.ReadSource? {
      if BatchAt(w, e.p) {
        ReadSourceLeavesFrame(c, w, e.p, e.io);
      }
    } else if e.ReadTarget? {
      if BatchAt(w, e.p) && w.procs[e.p].at.Loaded? {
        ReadTargetLeavesFrame(c, w, e.p, e.io);
      }
    } else if e.Put? || e.WriteMore? {
      PuttingLeavesFrame(c, w, e, p);
    } else if e.Switch? || e.DeleteSource? {
      SwitchingLeavesFrame(c, w, e, p);
    }
  }

  predicate NotInHand(q: Proc, key: Key) {
    q.Batch? ==> forall i :: q.next <= i < |q.todo| ==> q.todo[i].row.key != key
  }

  /** Whatever row has this key is recorded at the target and in no batch's hands. */
  ghost predicate Settled(c: Config, w: World, key: Key) {
    && (forall id :: id in w.rows && w.rows[id].key == key ==> w.rows[id].loc == Target(c))
    && (forall p :: p in w.procs ==> NotInHand(w.procs[p], key))
  }

  /** The current asset fails, the batch is given up, or it goes on to another point before the switch. */
  predicate MovesOn(b: Proc, b': Proc)
    requires b.Batch? && b.next < |b.todo|
  {
    b' == FailItem(b) || b' == Stopped || (b'.Batch? && b' == b.(at := b'.at) && !b'.at.Switched? && !b'.at.Reported?)
  }

  lemma ReadSourceMoves(c: Config, w: World, p: Pid, io: Io)
    requires BatchAt(w, p)
    ensures MovesOn(w.procs[p], DoReadSource(c, w, p, io).procs[p])
  {
  }

  lemma ReadTargetMoves(c: Config, w: World, p: Pid, io: Io)
    requires BatchAt(w, p) && w.procs[p].at.Loaded?
    ensures MovesOn(w.procs[p], DoReadTarget(c, w, p, io).procs[p])
  {
  }

  lemma CopyingMoves(c: Config, w: World, e: Event)
    requires Step(c, w, e) != w && (e.ReadSource? || e.ReadTarget? || e.Put? || e.WriteMore?)
    ensures BatchAt(w, e.p) && !w.procs[e.p].at.Switched? && !w.procs[e.p].at.Reported?
    ensures e.p in Step(c, w, e).procs && MovesOn(w.procs[e.p], Step(c, w, e).procs[e.p])
  {
    if e.ReadSource? {
      ReadSourceMoves(c, w, e.p, e.io);
    } else if e.ReadTarget? {
      ReadTargetMoves(c, w, e.p, e.io);
    }
  }

  lemma OtherMoves(c: Config, w: World, e: Event)
    requires Step(c, w, e) != w && e.p in w.procs && !(e.ReadSource? || e.ReadTarget? || e.Put? || e.WriteMore?)
    ensures e.p in Step(c, w, e).procs
    ensures var b, b' := w.procs[e.p], Step(c, w, e).procs[e.p];
            b'.Batch? ==> b.Batch? && b'.todo == b.todo && b'.next >= b.next
  {
  }

  lemma SettledRows(c: Config, w: World, e: Event, key: Key)
    requires Settled(c, w, key)
    ensures forall id :: id in Step(c, w, e).rows && Step(c, w, e).rows[id].key == key ==> Step(c, w, e).rows[id].loc == Target(c)
  {
  }

  lemma SettledStays(c: Config, w: World, e: Event, key: Key)
    requires Settled(c, w, key)
    ensures Settled(c, Step(c, w, e), key)
  {
    var w' := Step(c, w, e);
    SettledRows(c, w, e, key);
    if w' != w && e.p in w.procs {
      assert NotInHand(w.procs[e.p], key);
      if e.ReadSource? || e.ReadTarget? || e.Put? || e.WriteMore? {
        CopyingMoves(c, w, e);
      } else {
        OtherMoves(c, w, e);
      }
    }
    forall p | p in w'.procs ensures NotInHand(w'.procs[p], key) {
      if p != e.p {
        OthersLeaveFrame(c, w, e, p);
      } else if p !in w.procs && e.StartBatch? {
        forall i | 0 <= i < |e.chosen| ensures Snapshot(w, e.chosen)[i].row.key != key {
          assert e.chosen[i] in e.chosen;
        }
      }
    }
  }

  /** A process about to delete the object it stored: if the row is there after all, nobody is moving it. */
  ghost predicate CleaningOk(c: Config, w: World) {
    forall p :: p in w.procs && w.procs[p].Storing? && w.procs[p].step.Cleaning? ==> Settled(c, w, w.procs[p].key)
  }

  /** Before its row can exist, a key is in nobody's hands. */
  lemma UnusedIsSettled(c: Config, w: World, p: Pid, gone: set<Id>)
    requires Inv(c, Forget(w, gone)) && p in w.procs && w.procs[p].Storing? && !w.procs[p].step.Cleaning?
    ensures Settled(c, w, w.procs[p].key)
  {
    var v := Forget(w, gone);
    var key := w.procs[p].key;
    assert ProcOk(c, v, v.procs[p]);
    forall q | q in w.procs ensures NotInHand(w.procs[q], key) {
      assert ProcOk(c, v, v.procs[q]);
      if w.procs[q].Batch? {
        forall i | w.procs[q].next <= i < |w.procs[q].todo| ensures w.procs[q].todo[i].row.key != key {
          assert ItemOk(c, v, w.procs[q].todo[i]);
        }
      }
    }
  }

  /** A storing process keeps its key, and starts out writing. */
  lemma StoringCameFrom(c: Config, w: World, e: Event, p: Pid)
    requires p in Step(c, w, e).procs && Step(c, w, e).procs[p].Storing? && !Step(c, w, e).procs[p].step.Putting?
    ensures p in w.procs && w.procs[p].Storing? && w.procs[p].key == Step(c, w, e).procs[p].key
  {
    if e.p != p {
      OthersLeaveFrame(c, w, e, p);
    } else if ByBatch(e) {
      BatchesDoNotStore(c, w, e);
    }
  }

  lemma BatchesDoNotStore(c: Config, w: World, e: Event)
    requires ByBatch(e) && e.p in Step(c, w, e).procs && Step(c, w, e).procs[e.p].Storing?
    ensures e.p in w.procs && w.procs[e.p] == Step(c, w, e).procs[e.p]
  {
    if Step(c, w, e) != w && (e.ReadSource? || e.ReadTarget? || e.Put? || e.WriteMore?) {
      CopyingMoves(c, w, e);
    }
  }

  /** Keys are fresh when storing begins, so no process stores under the key of a row that is there already. */
  lemma OldKeyStaysFree(c: Config, w: World, e: Event, id: Id)
    requires id in w.rows && forall p :: p in w.procs && w.procs[p].Storing? ==> w.procs[p].key != w.rows[id].key
    ensures forall p :: p in Step(c, w, e).procs && Step(c, w, e).procs[p].Storing? ==>
              Step(c, w, e).procs[p].key != w.rows[id].key
  {
    var z := Step(c, w, e);
    forall p | p in z.procs && z.procs[p].Storing? ensures z.procs[p].key != w.rows[id].key {
      if p != e.p {
        OthersLeaveFrame(c, w, e, p);
      } else if !z.procs[p].step.Putting? {
        StoringCameFrom(c, w, e, p);
      }
    }
  }

  lemma StepKeepsCleaning(c: Config, w: World, e: Event, gone: set<Id>)
    requires Inv(c, Forget(w, gone)) && CleaningOk(c, w)
    ensures CleaningOk(c, Step(c, w, e))
  {
    var w' := Step(c, w, e);
    forall p | p in w'.procs && w'.procs[p].Storing? && w'.procs[p].step.Cleaning? ensures Settled(c, w', w'.procs[p].key) {
      StoringCameFrom(c, w, e, p);
      if !w.procs[p].step.Cleaning? {
        UnusedIsSettled(c, w, p, gone);
      }
      SettledStays(c, w, e, w.procs[p].key);
    }
  }

  /** The object of this row is gone, and nobody can put it back. */
  ghost predicate GoneForever(c: Config, w: World, id: Id) {
    && id in w.rows && Settled(c, w, w.rows[id].key)
    && (Physical(c, Target(c)), w.rows[id].key) !in w.objects
    && (forall p :: p in w.procs && w.procs[p].Storing? ==> w.procs[p].key != w.rows[id].key)
  }

  lemma CopyPutsNothingBack(c: Config, w: World, e: Event, id: Id)
    requires GoneForever(c, w, id) && (e.Put? || e.WriteMore?)
    ensures (Physical(c, Target(c)), w.rows[id].key) !in Step(c, w, e).objects
  {
    if Step(c, w, e) != w {
      assert NotInHand(w.procs[e.p], w.rows[id].key);
    }
  }

  lemma NothingIsPutBack(c: Config, w: World, e: Event, id: Id)
    requires GoneForever(c, w, id)
    ensures (Physical(c, Target(c)), w.rows[id].key) !in Step(c, w, e).objects
  {
    if e.Put? || e.WriteMore? {
      CopyPutsNothingBack(c, w, e, id);
    }
  }

  lemma GoneStays(c: Config, w: World, e: Event, id: Id)
    requires GoneForever(c, w, id)
    ensures GoneForever(c, Step(c, w, e), id)
  {
    StepGrows(c, w, e);
    SettledStays(c, w, e, w.rows[id].key);
    NothingIsPutBack(c, w, e, id);
    OldKeyStaysFree(c, w, e, id);
  }

  function RevokedBy(w: World, e: Event): set<Id> {
    set id | id in w.rows && Revokes(w, e, id)
  }

  /** The rows whose object was deleted in the belief that their insert had failed. */
  function RevokedIds(c: Config, w: World, es: seq<Event>): set<Id> {
    if es == [] then {}
    else RevokedIds(c, w, es[..|es| - 1]) + RevokedBy(Run(c, w, es[..|es| - 1]), es[|es| - 1])
  }

  /** The invariant for all assets but those in `gone`. */
  ghost predicate InvBut(c: Config, w: World, gone: set<Id>) {
    gone <= w.rows.Keys && Inv(c, Forget(w, gone)) && CleaningOk(c, w)
  }

  lemma StepKeepsInvBut(c: Config, w: World, e: Event, gone: set<Id>)
    requires InvBut(c, w, gone)
    ensures InvBut(c, Step(c, w, e), gone + RevokedBy(w, e))
  {
    var more := gone + RevokedBy(w, e);
    ForgetMore(c, w, gone, more);
    forall id ensures !Revokes(Forget(w, more), e, id) {
      assert Revokes(Forget(w, more), e, id) ==> Revokes(w, e, id);
    }
    StepKeepsInv(c, Forget(w, more), e);
    StepForgets(c, w, e, more);
    StepGrows(c, w, e);
    StepKeepsCleaning(c, w, e, gone);
  }

  lemma RevokedIsGone(c: Config, w: World, e: Event, gone: set<Id>, id: Id)
    requires InvBut(c, w, gone) && Revokes(w, e, id)
    ensures GoneForever(c, Step(c, w, e), id)
  {
    var w' := Step(c, w, e);
    SettledStays(c, w, e, w.rows[id].key);
    forall p | p in w'.procs && w'.procs[p].Storing? ensures w'.procs[p].key != w.rows[id].key {
      assert Apart(Forget(w, gone), e.p, p);
    }
  }

  /** In every run the invariant holds for all assets but those revoked, whose objects are gone for good. */
  lemma {:induction false} RunKeepsInv(c: Config, w: World, es: seq<Event>, gone: set<Id>)
    requires InvBut(c, w, gone)
    ensures InvBut(c, Run(c, w, es), gone + RevokedIds(c, w, es))
    ensures forall id :: id in RevokedIds(c, w, es) ==> GoneForever(c, Run(c, w, es), id)
  {
    if es == [] {
      assert gone + RevokedIds(c, w, es) == gone;
    } else {
      var ds, e := es[..|es| - 1], es[|es| - 1];
      var y := Run(c, w, ds);
      var so := gone + RevokedIds(c, w, ds);
      RunKeepsInv(c, w, ds, gone);
      StepKeepsInvBut(c, y, e, so);
      assert gone + RevokedIds(c, w, es) == so + RevokedBy(y, e);
      forall id | id in RevokedIds(c, w, es) ensures GoneForever(c, Run(c, w, es), id) {
        if id in RevokedBy(y, e) {
          RevokedIsGone(c, y, e, so, id);
        } else {
          GoneStays(c, y, e, id);
        }
      }
    }
  }

  // ---------------------------------------------------------------- damaged sources

  /** The source bytes pass the checks made before copying. */
  predicate Accepted(c: Config, data: Bytes, row: Row) {
    |data| <= c.maxReadBytes && |data| == row.size && (row.checksum.None? || row.checksum.value == Sha256(data))
  }

  /** The row's object is missing, or fails the checks. */
  predicate Damaged(c: Config, w: World, row: Row) {
    Cell(c, row) in w.objects ==> !Accepted(c, w.objects[Cell(c, row)], row)
  }

  /** A batch that has the row in hand is still before its copying. */
  ghost predicate NotCopying(q: Proc, id: Id, row: Row) {
    q.Batch? ==>
      && (forall i :: q.next <= i < |q.todo| && q.todo[i].id == id ==> q.todo[i].row == row.(deleted := q.todo[i].row.deleted))
      && (q.next < |q.todo| && q.todo[q.next].id == id ==> q.at.Head? || q.at.Reported?)
  }

  ghost predicate StuckWith(c: Config, w: World, id: Id, row: Row) {
    && row.loc != Target(c) && Physical(c, row.loc) != Physical(c, Target(c))
    && id in w.rows && w.rows[id] == row.(deleted := w.rows[id].deleted)
    && Damaged(c, w, row)
    && (forall p :: p in w.procs ==> NotCopying(w.procs[p], id, row))
  }

  lemma StuckFrame(c: Config, w: World, w': World, p: Pid, id: Id, row: Row)
    requires StuckWith(c, w, id, row)
    requires p in w'.procs && w'.procs == w.procs[p := w'.procs[p]] && NotCopying(w'.procs[p], id, row)
    requires id in w'.rows && w'.rows[id] == row.(deleted := w'.rows[id].deleted)
    requires Cell(c, row) in w'.objects ==>
               Cell(c, row) in w.objects && w'.objects[Cell(c, row)] == w.objects[Cell(c, row)]
    ensures StuckWith(c, w', id, row)
  {
  }

  lemma ReadSourceKeepsStuck(c: Config, w: World, p: Pid, io: Io, id: Id, row: Row)
    requires StuckWith(c, w, id, row) && BatchAt(w, p) && w.procs[p].at.Head?
    ensures StuckWith(c, DoReadSource(c, w, p, io), id, row)
  {
    assert NotCopying(w.procs[p], id, row);
    StuckFrame(c, w, DoReadSource(c, w, p, io), p, id, row);
  }

  lemma ReadTargetKeepsStuck(c: Config, w: World, p: Pid, io: Io, id: Id, row: Row)
    requires StuckWith(c, w, id, row) && BatchAt(w, p) && w.procs[p].at.Loaded?
    ensures StuckWith(c, DoReadTarget(c, w, p, io), id, row)
  {
    assert NotCopying(w.procs[p], id, row);
    StuckFrame(c, w, DoReadTarget(c, w, p, io), p, id, row);
  }

  lemma PutKeepsStuck(c: Config, w: World, e: Event, id: Id, row: Row)
    requires StuckWith(c, w, id, row) && BatchAt(w, e.p) && (e.Put?)
    ensures StuckWith(c, Step(c, w, e), id, row)
  {
    assert NotCopying(w.procs[e.p], id, row);
    if Step(c, w, e) != w {
      StuckFrame(c, w, Step(c, w, e), e.p, id, row);
    }
  }

  lemma WriteKeepsStuck(c: Config, w: World, e: Event, id: Id, row: Row)
    requires StuckWith(c, w, id, row) && BatchAt(w, e.p) && (e.WriteMore?)
    ensures StuckWith(c, Step(c, w, e), id, row)
  {
    assert NotCopying(w.procs[e.p], id, row);
    if Step(c, w, e) != w {
      StuckFrame(c, w, Step(c, w, e), e.p, id, row);
    }
  }

  lemma SwitchKeepsStuck(c: Config, w: World, e: Event, id: Id, row: Row)
    requires StuckWith(c, w, id, row) && BatchAt(w, e.p) && (e.Switch? || e.DeleteSource?)
    ensures StuckWith(c, Step(c, w, e), id, row)
  {
    assert NotCopying(w.procs[e.p], id, row);
    if Step(c, w, e) != w {
      StuckFrame(c, w, Step(c, w, e), e.p, id, row);
    }
  }

  lemma StepKeepsStuck(c: Config, w: World, e: Event, id: Id, row: Row)
    requires StuckWith(c, w, id, row)
    ensures StuckWith(c, Step(c, w, e), id, row)
  {
    var w' := Step(c, w, e);
    if w' != w {
      if e.ReadSource? {
        ReadSourceKeepsStuck(c, w, e.p, e.io, id, row);
      } else if e.ReadTarget? {
        ReadTargetKeepsStuck(c, w, e.p, e.io, id, row);
      } else if e.Put? {
        PutKeepsStuck(c, w, e, id, row);
      } else if e.WriteMore? {
        WriteKeepsStuck(c, w, e, id, row);
      } else if e.Switch? || e.DeleteSource? {
        SwitchKeepsStuck(c, w, e, id, row);
      } else {
        OtherKeepsStuck(c, w, e, id, row);
      }
    }
  }

  lemma OtherKeepsStuck(c: Config, w: World, e: Event, id: Id, row: Row)
    requires StuckWith(c, w, id, row) && Step(c, w, e) != w
    requires !e.ReadSource? && !e.ReadTarget? && !e.Put? && !e.WriteMore? && !e.Switch? && !e.DeleteSource?
    ensures StuckWith(c, Step(c, w, e), id, row)
  {
    assert e.p in w.procs ==> NotCopying(w.procs[e.p], id, row);
    if ByBatch(e) {
      BatchKeepsStuck(c, w, e, id, row);
    } else {
      StuckFrame(c, w, Step(c, w, e), e.p, id, row);
    }
  }

  lemma BatchKeepsStuck(c: Config, w: World, e: Event, id: Id, row: Row)
    requires StuckWith(c, w, id, row) && Step(c, w, e) != w && (e.StartBatch? || e.Report?)
    ensures StuckWith(c, Step(c, w, e), id, row)
  {
    assert e.p in w.procs ==> NotCopying(w.procs[e.p], id, row);
    StuckFrame(c, w, Step(c, w, e), e.p, id, row);
  }

  /**
    Migration never launders a damaged file: whatever runs, a row whose object is missing or does not
    match its recorded size and checksum stays at its location with that size and checksum.
  */
  lemma {:induction false} DamagedIsNeverMoved(c: Config, w: World, es: seq<Event>, id: Id)
    requires w.procs == map[] && id in w.rows && Damaged(c, w, w.rows[id])
    requires w.rows[id].loc != Target(c) && !Aliased(c, w.rows[id])
    ensures StuckWith(c, Run(c, w, es), id, w.rows[id])
  {
    if es != [] {
      DamagedIsNeverMoved(c, w, es[..|es| - 1], id);
      StepKeepsStuck(c, Run(c, w, es[..|es| - 1]), es[|es| - 1], id, w.rows[id]);
    }
  }

  // ---------------------------------------------------------------- aliased rows that fail the checks

  /** The batches read the object of such a row, refuse it and go on; it stays for as long as the row lives. */
  ghost predicate Frozen(c: Config, w: World, id: Id, row: Row, data: Bytes) {
    && Aliased(c, row) && !Accepted(c, data, row)
    && id in w.rows && w.rows[id] == row.(deleted := w.rows[id].deleted)
    && (Cell(c, row) in w.objects ==> w.objects[Cell(c, row)] == data)
    && (!w.rows[id].deleted ==> Cell(c, row) in w.objects)
    && (forall p :: p in w.procs ==> NotCopying(w.procs[p], id, row))
  }

  lemma FrozenFrame(c: Config, w: World, w': World, p: Pid, id: Id, row: Row, data: Bytes)
    requires Frozen(c, w, id, row, data)
    requires p in w'.procs && w'.procs == w.procs[p := w'.procs[p]] && NotCopying(w'.procs[p], id, row)
    requires id in w'.rows && w'.rows[id] == row.(deleted := w'.rows[id].deleted)
    requires w.rows[id].deleted ==> w'.rows[id].deleted
    requires Cell(c, row) in w'.objects ==>
               Cell(c, row) in w.objects && w'.objects[Cell(c, row)] == w.objects[Cell(c, row)]
    requires Cell(c, row) in w.objects && !w'.rows[id].deleted ==> Cell(c, row) in w'.objects
    ensures Frozen(c, w', id, row, data)
  {
  }

  /** What another asset's turn touches lies under another key. */
  lemma OtherKey(c: Config, w: World, p: Pid, id: Id, gone: set<Id>)
    requires Inv(c, Forget(w, gone)) && BatchAt(w, p) && id in w.rows
    requires w.procs[p].todo[w.procs[p].next].id != id
    ensures w.procs[p].todo[w.procs[p].next].row.key != w.rows[id].key
  {
    var v := Forget(w, gone);
    assert ProcOk(c, v, v.procs[p]);
    assert ItemOk(c, v, v.procs[p].todo[v.procs[p].next]);
  }

  lemma ReadSourceKeepsFrozen(c: Config, w: World, p: Pid, io: Io, id: Id, row: Row, data: Bytes)
    requires Frozen(c, w, id, row, data) && BatchAt(w, p) && w.procs[p].at.Head?
    ensures Frozen(c, DoReadSource(c, w, p, io), id, row, data)
  {
    assert NotCopying(w.procs[p], id, row);
    FrozenFrame(c, w, DoReadSource(c, w, p, io), p, id, row, data);
  }

  lemma ReadTargetKeepsFrozen(c: Config, w: World, p: Pid, io: Io, id: Id, row: Row, data: Bytes)
    requires Frozen(c, w, id, row, data) && BatchAt(w, p) && w.procs[p].at.Loaded?
    ensures Frozen(c, DoReadTarget(c, w, p, io), id, row, data)
  {
    assert NotCopying(w.procs[p], id, row);
    FrozenFrame(c, w, DoReadTarget(c, w, p, io), p, id, row, data);
  }

  lemma PutKeepsFrozen(c: Config, w: World, p: Pid, io: Io, id: Id, row: Row, data: Bytes, gone: set<Id>)
    requires Frozen(c, w, id, row, data) && Inv(c, Forget(w, gone)) && BatchAt(w, p) && w.procs[p].at.Absent?
    ensures Frozen(c, DoPut(c, w, p, io), id, row, data)
  {
    OtherKey(c, w, p, id, gone);
    assert NotCopying(w.procs[p], id, row);
    FrozenFrame(c, w, DoPut(c, w, p, io), p, id, row, data);
  }

  lemma WriteMoreKeepsFrozen(c: Config, w: World, e: Event, id: Id, row: Row, data: Bytes, gone: set<Id>)
    requires Frozen(c, w, id, row, data) && Inv(c, Forget(w, gone)) && e.WriteMore? && Step(c, w, e) != w
    ensures Frozen(c, Step(c, w, e), id, row, data)
  {
    OtherKey(c, w, e.p, id, gone);
    assert NotCopying(w.procs[e.p], id, row);
    FrozenFrame(c, w, Step(c, w, e), e.p, id, row, data);
  }

  lemma SwitchKeepsFrozen(c: Config, w: World, p: Pid, io: Io, id: Id, row: Row, data: Bytes, gone: set<Id>)
    requires Frozen(c, w, id, row, data) && Inv(c, Forget(w, gone)) && BatchAt(w, p) && w.procs[p].at.Stored?
    ensures Frozen(c, DoSwitch(c, w, p, io), id, row, data)
  {
    OtherKey(c, w, p, id, gone);
    assert NotCopying(w.procs[p], id, row);
    FrozenFrame(c, w, DoSwitch(c, w, p, io), p, id, row, data);
  }

  lemma DeleteSourceKeepsFrozen(c: Config, w: World, p: Pid, io: Io, id: Id, row: Row, data: Bytes, gone: set<Id>)
    requires Frozen(c, w, id, row, data) && Inv(c, Forget(w, gone)) && BatchAt(w, p) && w.procs[p].at.Switched?
    ensures Frozen(c, DoDeleteSource(c, w, p, io), id, row, data)
  {
    OtherKey(c, w, p, id, gone);
    assert NotCopying(w.procs[p], id, row);
    FrozenFrame(c, w, DoDeleteSource(c, w, p, io), p, id, row, data);
  }

  lemma MarkDeletedKeepsFrozen(c: Config, w: World, p: Pid, io: Io, id: Id, row: Row, data: Bytes, gone: set<Id>)
    requires Frozen(c, w, id, row, data) && Inv(c, Forget(w, gone)) && p in w.procs && w.procs[p].Removing?
    ensures Frozen(c, DoMarkDeleted(c, w, p, io), id, row, data)
  {
    assert ProcOk(c, Forget(w, gone), w.procs[p]);
    assert NotCopying(w.procs[p], id, row);
    FrozenFrame(c, w, DoMarkDeleted(c, w, p, io), p, id, row, data);
  }

  lemma DeleteRemovedKeepsFrozen(c: Config, w: World, e: Event, id: Id, row: Row, data: Bytes, gone: set<Id>)
    requires Frozen(c, w, id, row, data) && Inv(c, Forget(w, gone)) && e.DeleteRemoved? && Step(c, w, e) != w
    ensures Frozen(c, Step(c, w, e), id, row, data)
  {
    assert ProcOk(c, Forget(w, gone), w.procs[e.p]);
    assert NotCopying(w.procs[e.p], id, row);
    FrozenFrame(c, w, Step(c, w, e), e.p, id, row, data);
  }

  lemma PutNewKeepsFrozen(c: Config, w: World, e: Event, id: Id, row: Row, data: Bytes, gone: set<Id>)
    requires Frozen(c, w, id, row, data) && InvBut(c, w, gone) && e.PutNew? && Step(c, w, e) != w
    ensures Frozen(c, Step(c, w, e), id, row, data)
  {
    assert ProcOk(c, Forget(w, gone), w.procs[e.p]);
    assert w.procs[e.p].key != row.key;
    FrozenFrame(c, w, Step(c, w, e), e.p, id, row, data);
  }

  lemma CreateRowKeepsFrozen(c: Config, w: World, e: Event, id: Id, row: Row, data: Bytes)
    requires Frozen(c, w, id, row, data) && e.CreateRow? && Step(c, w, e) != w
    ensures Frozen(c, Step(c, w, e), id, row, data)
  {
    FrozenFrame(c, w, Step(c, w, e), e.p, id, row, data);
  }

  lemma CleanUpKeepsFrozen(c: Config, w: World, e: Event, id: Id, row: Row, data: Bytes)
    requires Frozen(c, w, id, row, data) && CleaningOk(c, w) && e.CleanUp? && Step(c, w, e) != w
    ensures Frozen(c, Step(c, w, e), id, row, data)
  {
    assert Settled(c, w, w.procs[e.p].key);
    assert w.procs[e.p].key != row.key;
    FrozenFrame(c, w, Step(c, w, e), e.p, id, row, data);
  }

  lemma OtherKeepsFrozen(c: Config, w: World, e: Event, id: Id, row: Row, data: Bytes)
    requires Frozen(c, w, id, row, data) && Step(c, w, e) != w
    requires e.StartBatch? || e.Report? || e.StartRemove? || e.StartStore? || e.Crash?
    ensures Frozen(c, Step(c, w, e), id, row, data)
  {
    assert e.p in w.procs ==> NotCopying(w.procs[e.p], id, row);
    FrozenFrame(c, w, Step(c, w, e), e.p, id, row, data);
  }

  lemma StepKeepsFrozen(c: Config, w: World, e: Event, id: Id, row: Row, data: Bytes, gone: set<Id>)
    requires Frozen(c, w, id, row, data) && InvBut(c, w, gone)
    ensures Frozen(c, Step(c, w, e), id, row, data)
  {
    if Step(c, w, e) == w {
    } else if e.ReadSource? {
      ReadSourceKeepsFrozen(c, w, e.p, e.io, id, row, data);
    } else if e.ReadTarget? {
      ReadTargetKeepsFrozen(c, w, e.p, e.io, id, row, data);
    } else if e.Put? {
      PutKeepsFrozen(c, w, e.p, e.io, id, row, data, gone);
    } else if e.WriteMore? {
      WriteMoreKeepsFrozen(c, w, e, id, row, data, gone);
    } else if e.Switch? {
      SwitchKeepsFrozen(c, w, e.p, e.io, id, row, data, gone);
    } else if e.DeleteSource? {
      DeleteSourceKeepsFrozen(c, w, e.p, e.io, id, row, data, gone);
    } else if e.MarkDeleted? {
      MarkDeletedKeepsFrozen(c, w, e.p, e.io, id, row, data, gone);
    } else if e.DeleteRemoved? {
      DeleteRemovedKeepsFrozen(c, w, e, id, row, data, gone);
    } else if e.PutNew? {
      PutNewKeepsFrozen(c, w, e, id, row, data, gone);
    } else if e.CreateRow? {
      CreateRowKeepsFrozen(c, w, e, id, row, data);
    } else if e.CleanUp? {
      CleanUpKeepsFrozen(c, w, e, id, row, data);
    } else {
      OtherKeepsFrozen(c, w, e, id, row, data);
    }
  }

  // ---------------------------------------------------------------- main results

  /** A quiet service in which every live asset finds its bytes. */
  ghost predicate Start(c: Config, w: World) {
    w.procs == map[] && KeysUnique(w) && w.original.Keys <= w.rows.Keys && NothingLost(c, w)
  }

  /** A batch would copy this asset onto itself and then delete the "source". */
  predicate Doomed(c: Config, w: World, id: Id)
    requires id in w.rows && id in w.original
  {
    Aliased(c, w.rows[id]) && Accepted(c, w.original[id], w.rows[id])
  }

  ghost predicate NoneDoomed(c: Config, w: World) {
    forall id :: Live(w, id) ==> !Doomed(c, w, id)
  }

  function AliasedIds(c: Config, w: World): set<Id> {
    set id | id in w.rows && Live(w, id) && Aliased(c, w.rows[id])
  }

  lemma StartInv(c: Config, w: World)
    requires Start(c, w)
    ensures InvBut(c, w, AliasedIds(c, w))
  {
    var v := Forget(w, AliasedIds(c, w));
    forall id ensures RowOk(c, v, id) {
      if Live(v, id) {
        assert Live(w, id) && id !in AliasedIds(c, w);
      }
    }
  }

  lemma {:induction false} FrozenInRun(c: Config, w: World, es: seq<Event>, id: Id)
    requires Start(c, w) && Live(w, id) && Aliased(c, w.rows[id]) && !Doomed(c, w, id)
    ensures Frozen(c, Run(c, w, es), id, w.rows[id], w.original[id])
  {
    if es == [] {
      assert Finds(c, w, id);
    } else {
      var ds := es[..|es| - 1];
      FrozenInRun(c, w, ds, id);
      StartInv(c, w);
      RunKeepsInv(c, w, ds, AliasedIds(c, w));
      StepKeepsFrozen(c, Run(c, w, ds), es[|es| - 1], id, w.rows[id], w.original[id],
                      AliasedIds(c, w) + RevokedIds(c, w, ds));
    }
  }

  lemma OriginalStays(c: Config, w: World, e: Event, id: Id)
    requires id in w.rows && w.original.Keys <= w.rows.Keys
    ensures Step(c, w, e).original.Keys <= Step(c, w, e).rows.Keys
    ensures id in Step(c, w, e).original <==> id in w.original
    ensures id in w.original ==> Step(c, w, e).original[id] == w.original[id]
  {
    if e.Switch? {
      SwitchGrows(c, w, e.p, e.io);
    } else if !e.MarkDeleted? && !e.CreateRow? {
      RowsStay(c, w, e);
    }
  }

  /** What has a row from the start keeps its key and its bytes on record, and is never taken for a failed insert. */
  lemma {:induction false} OldIsNeverRevoked(c: Config, w: World, es: seq<Event>, id: Id)
    requires w.procs == map[] && w.original.Keys <= w.rows.Keys && id in w.rows
    ensures var z := Run(c, w, es);
            && z.original.Keys <= z.rows.Keys && id in z.rows && z.rows[id].key == w.rows[id].key
            && (id in z.original <==> id in w.original) && (id in w.original ==> z.original[id] == w.original[id])
            && (w.rows[id].deleted ==> z.rows[id].deleted)
            && (forall p :: p in z.procs && z.procs[p].Storing? ==> z.procs[p].key != w.rows[id].key)
            && id !in RevokedIds(c, w, es)
  {
    if es != [] {
      var y, e := Run(c, w, es[..|es| - 1]), es[|es| - 1];
      var z := Step(c, y, e);
      OldIsNeverRevoked(c, w, es[..|es| - 1], id);
      StepGrows(c, y, e);
      OriginalStays(c, y, e, id);
      OldKeyStaysFree(c, y, e, id);
    }
  }

  /** The fate of one live asset in one run. */
  lemma FoundUnlessRevoked(c: Config, w: World, es: seq<Event>, id: Id)
    requires Start(c, w) && Live(Run(c, w, es), id) && (Live(w, id) ==> !Doomed(c, w, id))
    ensures Finds(c, Run(c, w, es), id) <==> id !in RevokedIds(c, w, es)
  {
    var z := Run(c, w, es);
    var gone := AliasedIds(c, w) + RevokedIds(c, w, es);
    StartInv(c, w);
    RunKeepsInv(c, w, es, AliasedIds(c, w));
    if id in RevokedIds(c, w, es) {
      assert GoneForever(c, z, id);
    } else if id in AliasedIds(c, w) {
      FrozenInRun(c, w, es, id);
      OldIsNeverRevoked(c, w, es, id);
    } else {
      assert Live(Forget(z, gone), id) && RowOk(c, Forget(z, gone), id);
    }
  }

  /**
    Whatever interleaving of batches, deletions, uploads, failures and crashes has run, a live asset
    finds the bytes it was stored with, unless its own insert had been given up for failed.
  */
  lemma NoInterleavingLosesBytes(c: Config, w: World, es: seq<Event>)
    requires Start(c, w) && NoneDoomed(c, w)
    ensures forall id :: Live(Run(c, w, es), id) ==> (Finds(c, Run(c, w, es), id) <==> id !in RevokedIds(c, w, es))
    ensures NothingLost(c, Run(c, w, es)) <==> forall id :: id in RevokedIds(c, w, es) ==> !Live(Run(c, w, es), id)
  {
    forall id | Live(Run(c, w, es), id)
      ensures Finds(c, Run(c, w, es), id) <==> id !in RevokedIds(c, w, es)
    {
      FoundUnlessRevoked(c, w, es, id);
    }
  }

  lemma {:induction false} RevokedGrow(c: Config, w: World, es: seq<Event>, k: nat)
    requires k <= |es|
    ensures RevokedIds(c, w, es[..k]) <= RevokedIds(c, w, es)
  {
    if k == |es| {
      assert es[..k] == es;
    } else {
      RevokedGrow(c, w, es[..|es| - 1], k);
      assert es[..|es| - 1][..k] == es[..k];
    }
  }

  /** A revoked asset is lost at the moment its object is deleted. */
  lemma {:induction false} RevokedWasLive(c: Config, w: World, es: seq<Event>, id: Id) returns (k: nat)
    requires id in RevokedIds(c, w, es)
    ensures k <= |es| && id in RevokedIds(c, w, es[..k]) && Live(Run(c, w, es[..k]), id)
  {
    var ds := es[..|es| - 1];
    if id in RevokedIds(c, w, ds) {
      k := RevokedWasLive(c, w, ds, id);
      assert ds[..k] == es[..k];
    } else {
      k := |es|;
      assert es[..k] == es;
    }
  }

  /** At no moment of a run is anything lost if and only if no object of a lost insert was deleted while its row lived. */
  lemma SafeScheduleIff(c: Config, w: World, es: seq<Event>)
    requires Start(c, w) && NoneDoomed(c, w)
    ensures (forall k :: 0 <= k <= |es| ==> NothingLost(c, Run(c, w, es[..k]))) <==> RevokedIds(c, w, es) == {}
  {
    if RevokedIds(c, w, es) == {} {
      forall k | 0 <= k <= |es| ensures NothingLost(c, Run(c, w, es[..k])) {
        RevokedGrow(c, w, es, k);
        NoInterleavingLosesBytes(c, w, es[..k]);
      }
    } else {
      var id :| id in RevokedIds(c, w, es);
      var k := RevokedWasLive(c, w, es, id);
      NoInterleavingLosesBytes(c, w, es[..k]);
    }
  }

  /** Event `i` is an insert of `id` by `p` that took effect although it reported an error. */
  predicate InsertedUnseen(c: Config, w: World, es: seq<Event>, i: nat, p: Pid, id: Id) {
    && i < |es| && es[i] == CreateRow(p, id, Lost)
    && id !in Run(c, w, es[..i]).rows && id in Run(c, w, es[..i + 1]).rows
  }

  /** And its process went on to delete the object, in event `j`, while the row was live. */
  predicate LostThenCleaned(c: Config, w: World, es: seq<Event>, i: nat, j: nat, p: Pid, id: Id) {
    && i < j < |es| && InsertedUnseen(c, w, es, i, p, id)
    && es[j].CleanUp? && es[j].p == p && Revokes(Run(c, w, es[..j]), es[j], id)
  }

  lemma InsertedInLonger(c: Config, w: World, es: seq<Event>, n: nat, i: nat, p: Pid, id: Id)
    requires n <= |es| && InsertedUnseen(c, w, es[..n], i, p, id)
    ensures InsertedUnseen(c, w, es, i, p, id)
  {
    assert es[..n][..i] == es[..i] && es[..n][..i + 1] == es[..i + 1];
  }

  lemma LostInLonger(c: Config, w: World, es: seq<Event>, n: nat, i: nat, j: nat, p: Pid, id: Id)
    requires n <= |es| && LostThenCleaned(c, w, es[..n], i, j, p, id)
    ensures LostThenCleaned(c, w, es, i, j, p, id)
  {
    InsertedInLonger(c, w, es, n, i, p, id);
    assert es[..n][..j] == es[..j];
  }

  lemma {:induction false} CleaningRowWasLost(c: Config, w: World, es: seq<Event>, p: Pid, id: Id) returns (i: nat)
    requires Start(c, w)
    requires var z := Run(c, w, es);
             && p in z.procs && z.procs[p].Storing? && z.procs[p].step.Cleaning?
             && id in z.rows && z.rows[id].key == z.procs[p].key
    ensures InsertedUnseen(c, w, es, i, p, id)
  {
    assert es != [];
    var n := |es| - 1;
    var ds, e := es[..n], es[n];
    var y := Run(c, w, ds);
    StartInv(c, w);
    RunKeepsInv(c, w, ds, AliasedIds(c, w));
    StepGrows(c, y, e);
    StoringCameFrom(c, y, e, p);
    if y.procs[p].step.Cleaning? && id in y.rows {
      i := CleaningRowWasLost(c, w, ds, p, id);
      InsertedInLonger(c, w, es, n, i, p, id);
    } else {
      InsertingIsLost(c, y, e, p, id, AliasedIds(c, w) + RevokedIds(c, w, ds));
      i := n;
      assert es[..i + 1] == es;
    }
  }

  lemma NewRowWasInserted(c: Config, w: World, e: Event, id: Id)
    requires id !in w.rows && id in Step(c, w, e).rows
    ensures e.CreateRow? && e.id == id && e.p in w.procs && w.procs[e.p].Storing?
    ensures Step(c, w, e).rows[id].key == w.procs[e.p].key
  {
  }

  lemma InsertingIsLost(c: Config, y: World, e: Event, p: Pid, id: Id, gone: set<Id>)
    requires InvBut(c, y, gone) && p in y.procs && y.procs[p].Storing?
    requires var z := Step(c, y, e);
             && p in z.procs && z.procs[p].Storing? && z.procs[p].step.Cleaning? && z.procs[p].key == y.procs[p].key
             && id in z.rows && z.rows[id].key == y.procs[p].key
    requires !y.procs[p].step.Cleaning? || id !in y.rows
    ensures e == CreateRow(p, id, Lost) && id !in y.rows
  {
    var v := Forget(y, gone);
    assert ProcOk(c, v, v.procs[p]);
    StepGrows(c, y, e);
    NewRowWasInserted(c, y, e, id);
    StoringApart(c, v, p);
  }

  /**
    Behind every revoked asset stands an insert of its row that took effect unseen, and later a
    deletion by the same process that found the row live.
  */
  lemma {:induction false} RevokedWasLost(c: Config, w: World, es: seq<Event>, id: Id)
    requires Start(c, w) && id in RevokedIds(c, w, es)
    ensures exists i, j, p :: LostThenCleaned(c, w, es, i, j, p, id)
  {
    if es != [] {
      var n := |es| - 1;
      var ds, e := es[..n], es[n];
      if id in RevokedIds(c, w, ds) {
        RevokedWasLost(c, w, ds, id);
        var i: nat, j: nat, p: Pid :| LostThenCleaned(c, w, ds, i, j, p, id);
        LostInLonger(c, w, es, n, i, j, p, id);
      } else {
        var i := CleaningRowWasLost(c, w, ds, e.p, id);
        InsertedInLonger(c, w, es, n, i, e.p, id);
        assert LostThenCleaned(c, w, es, i, n, e.p, id);
      }
    }
  }

  predicate NoLostInsert(es: seq<Event>) {
    forall i :: 0 <= i < |es| ==> !(es[i].CreateRow? && es[i].io.Lost?)
  }

  lemma NoneLostNoneRevoked(c: Config, w: World, es: seq<Event>)
    requires Start(c, w)
    ensures NoLostInsert(es) ==> RevokedIds(c, w, es) == {}
  {
    if RevokedIds(c, w, es) != {} {
      var id :| id in RevokedIds(c, w, es);
      RevokedWasLost(c, w, es, id);
    }
  }

  lemma RunOne(c: Config, w: World, es: seq<Event>, e: Event)
    ensures Run(c, w, es + [e]) == Step(c, Run(c, w, es), e)
  {
    assert (es + [e])[..|es|] == es;
  }

  lemma ThreeSteps(c: Config, w: World, e: Event, f: Event, g: Event)
    ensures Run(c, w, [e, f, g]) == Step(c, Step(c, Step(c, w, e), f), g)
  {
    RunOne(c, w, [], e);
    RunOne(c, w, [e], f);
    RunOne(c, w, [e, f], g);
    assert [] + [e] == [e] && [e] + [f] == [e, f] && [e, f] + [g] == [e, f, g];
  }

  /** An upload whose insert commits although the database reports an error. */
  function LostInsert(key: Key, data: Bytes, generated: bool, id: Id): seq<Event> {
    [StartStore(0, key, data, generated), PutNew(0, Ok), CreateRow(0, id, Lost), CleanUp(0, Ok)]
  }

  /** The object is written and its row about to be inserted. */
  function Uploaded(c: Config, w: World, key: Key, data: Bytes, generated: bool): World {
    Go(w.(objects := w.objects[(Physical(c, Target(c)), key) := data]), 0, Storing(key, data, generated, Creating))
  }

  lemma UploadIsWritten(c: Config, w: World, key: Key, data: Bytes, generated: bool)
    requires w.procs == map[] && FreshKey(w, key) && 0 < |data| <= c.maxBytes
    ensures Step(c, Step(c, w, StartStore(0, key, data, generated)), PutNew(0, Ok)) == Uploaded(c, w, key, data, generated)
  {
  }

  lemma LostInsertIsErased(c: Config, w: World, key: Key, data: Bytes, generated: bool, id: Id)
    requires id !in w.rows
    ensures var z := Step(c, Step(c, Uploaded(c, w, key, data, generated), CreateRow(0, id, Lost)), CleanUp(0, Ok));
            Live(z, id) && Cell(c, z.rows[id]) !in z.objects
  {
  }

  /** From every quiet service such an upload leaves a live row without its object. */
  lemma LostInsertLoses(c: Config, w: World, key: Key, data: Bytes, generated: bool, id: Id)
    requires w.procs == map[] && FreshKey(w, key) && id !in w.rows && 0 < |data| <= c.maxBytes
    ensures var z := Run(c, w, LostInsert(key, data, generated, id));
            Live(z, id) && Cell(c, z.rows[id]) !in z.objects
  {
    var es := LostInsert(key, data, generated, id);
    UploadIsWritten(c, w, key, data, generated);
    LostInsertIsErased(c, w, key, data, generated, id);
    ThreeSteps(c, w, es[0], es[1], es[2]);
    assert es[..3] == [es[0], es[1], es[2]] && es[..3] + [es[3]] == es;
    RunOne(c, w, es[..3], es[3]);
  }

  /** One byte, uploaded to an empty service on the local disk. */
  lemma LostInsertExample()
    ensures var c := Config(true, "", 10, 10);
            var w := World(map[], map[], map[], map[]);
            Start(c, w) && NoneDoomed(c, w) && !NothingLost(c, Run(c, w, LostInsert("a", [7], false, 0)))
  {
    var c := Config(true, "", 10, 10);
    var w := World(map[], map[], map[], map[]);
    assert Start(c, w);
    LostInsertLoses(c, w, "a", [7], false, 0);
    assert !Finds(c, Run(c, w, LostInsert("a", [7], false, 0)), 0);
  }

  /** The batch that migrates one aliased asset, undisturbed. */
  function LosingSchedule(id: Id): seq<Event> {
    [StartBatch(0, [id]), ReadSource(0, Ok), ReadTarget(0, Ok), Switch(0, Ok), DeleteSource(0, Ok)]
  }

  /** The batch of one asset, at a point of its loop body. */
  function OneAsset(w: World, id: Id, at: Point): Proc
    requires id in w.rows
  {
    Batch([Item(id, w.rows[id])], 0, at, [], [], [])
  }

  lemma DoomedIsSelected(c: Config, w: World, id: Id)
    requires Start(c, w) && Live(w, id) && Doomed(c, w, id)
    ensures Step(c, w, StartBatch(0, [id])) == Go(w, 0, OneAsset(w, id, Head))
  {
    assert [id][0] == id && Finds(c, w, id);
    assert Snapshot(w, [id]) == [Item(id, w.rows[id])];
  }

  lemma DoomedIsRead(c: Config, w: World, id: Id)
    requires Start(c, w) && Live(w, id) && Doomed(c, w, id)
    ensures Step(c, Go(w, 0, OneAsset(w, id, Head)), ReadSource(0, Ok)) == Go(w, 0, OneAsset(w, id, Loaded(w.original[id])))
  {
    assert Finds(c, w, id);
  }

  lemma DoomedIsCompared(c: Config, w: World, id: Id)
    requires Start(c, w) && Live(w, id) && Doomed(c, w, id)
    ensures Step(c, Go(w, 0, OneAsset(w, id, Loaded(w.original[id]))), ReadTarget(0, Ok))
         == Go(w, 0, OneAsset(w, id, Stored(w.original[id])))
  {
    assert Finds(c, w, id);
  }

  lemma DoomedIsVerified(c: Config, w: World, id: Id)
    requires Start(c, w) && Live(w, id) && Doomed(c, w, id)
    ensures Run(c, w, LosingSchedule(id)[..3]) == Go(w, 0, OneAsset(w, id, Stored(w.original[id])))
  {
    DoomedIsSelected(c, w, id);
    DoomedIsRead(c, w, id);
    DoomedIsCompared(c, w, id);
    ThreeSteps(c, w, LosingSchedule(id)[0], LosingSchedule(id)[1], LosingSchedule(id)[2]);
    assert LosingSchedule(id)[..3] == [LosingSchedule(id)[0], LosingSchedule(id)[1], LosingSchedule(id)[2]];
  }

  /** Migrating a row that aliases the target deletes the only copy it has just "verified". */
  lemma AliasedIsLost(c: Config, w: World, id: Id)
    requires Start(c, w) && Live(w, id) && Doomed(c, w, id)
    ensures var z := Run(c, w, LosingSchedule(id));
            Live(z, id) && Cell(c, z.rows[id]) !in z.objects
  {
    var es := LosingSchedule(id);
    DoomedIsVerified(c, w, id);
    var y := Run(c, w, es[..3]);
    RunOne(c, w, es[..3], es[3]);
    RunOne(c, w, es[..4], es[4]);
    assert es[..3] + [es[3]] == es[..4] && es[..4] + [es[4]] == es;
    assert Step(c, y, es[3]) == DoSwitch(c, y, 0, Ok);
    SwitchedIsErased(c, DoSwitch(c, y, 0, Ok), id);
  }

  lemma SwitchedIsErased(c: Config, w: World, id: Id)
    requires BatchAt(w, 0) && w.procs[0].at == Switched && w.procs[0].todo[w.procs[0].next].id == id
    requires Live(w, id) && Cell(c, w.procs[0].todo[w.procs[0].next].row) == Cell(c, w.rows[id])
    ensures var z := Step(c, w, DeleteSource(0, Ok));
            Live(z, id) && Cell(c, z.rows[id]) !in z.objects
  {
  }

  /**
    Exactly when one asset is safe. No run ever leaves it alive without its bytes, if and only if its
    row does not name another location for the target's own place, or its bytes fail the checks made
    on reading. The rows that alias are local rows carrying a bucket name and S3 rows with an empty bucket.
  */
  lemma AssetIsSafeIff(c: Config, w: World, id: Id)
    requires Start(c, w) && Live(w, id)
    ensures (forall es: seq<Event> :: Live(Run(c, w, es), id) ==> Finds(c, Run(c, w, es), id)) <==> !Doomed(c, w, id)
  {
    if Doomed(c, w, id) {
      AliasedIsLost(c, w, id);
      assert !Finds(c, Run(c, w, LosingSchedule(id)), id);
    } else {
      forall es: seq<Event> | Live(Run(c, w, es), id) ensures Finds(c, Run(c, w, es), id) {
        FoundUnlessRevoked(c, w, es, id);
        OldIsNeverRevoked(c, w, es, id);
      }
    }
  }

  /** And when the service is: as long as no insert is lost, no run loses anything if and only if nobody is doomed. */
  lemma SafeExactlyWithoutAliases(c: Config, w: World)
    requires Start(c, w)
    ensures (forall es: seq<Event> :: NoLostInsert(es) ==> NothingLost(c, Run(c, w, es))) <==> NoneDoomed(c, w)
  {
    if NoneDoomed(c, w) {
      forall es: seq<Event> | NoLostInsert(es) ensures NothingLost(c, Run(c, w, es)) {
        NoInterleavingLosesBytes(c, w, es);
        NoneLostNoneRevoked(c, w, es);
      }
    } else {
      var id :| Live(w, id) && Doomed(c, w, id);
      AliasedIsLost(c, w, id);
      assert NoLostInsert(LosingSchedule(id)) && !Finds(c, Run(c, w, LosingSchedule(id)), id);
    }
  }

  // ---------------------------------------------------------------- what a report says

  function Ids(todo: seq<Item>): seq<Id> {
    seq(|todo|, i requires 0 <= i < |todo| => todo[i].id)
  }

  /** How many of the chosen assets have been put on a list. */
  function Counted(b: Proc): nat
    requires b.Batch?
  {
    b.next + if b.at.Switched? then 1 else 0
  }

  ghost predicate ReportOk(c: Config, w: World, b: Proc)
    requires b.Batch?
  {
    && NoDuplicates(Ids(b.todo))
    && Counted(b) <= |b.todo|
    && multiset(b.migrated) + multiset(b.failed) == multiset(Ids(b.todo)[..Counted(b)])
    && (b.at.Switched? ==> b.todo[b.next].id in b.migrated)
    && (b.at.Reported? ==> b.next == |b.todo|)
    && (forall i :: b.next <= i < |b.todo| ==> b.todo[i].row.loc != Target(c))
    && (forall id :: id in b.warnings ==> id in b.migrated)
    && (forall id :: id in b.migrated ==> id in w.rows && w.rows[id].loc == Target(c))
  }

  predicate NoneShared(b: Proc, d: Proc) {
    b.Batch? && d.Batch? ==> forall id :: id in b.migrated ==> id !in d.migrated
  }

  ghost predicate ReportsOk(c: Config, w: World) {
    && (forall p :: p in w.procs && w.procs[p].Batch? ==> ReportOk(c, w, w.procs[p]))
    && (forall p, q :: p in w.procs && q in w.procs && p != q ==> NoneShared(w.procs[p], w.procs[q]))
  }

  lemma ReportKept(c: Config, w: World, w': World, b: Proc)
    requires b.Batch? && ReportOk(c, w, b) && RowsGrow(c, w, w')
    ensures ReportOk(c, w', b)
  {
  }

  /** A step of `p` as the reports see it. */
  ghost predicate OnlyMoves(c: Config, w: World, w': World, p: Pid) {
    && RowsGrow(c, w, w') && p in w'.procs
    && (forall q :: q != p && q in w'.procs ==> q in w.procs && w'.procs[q] == w.procs[q])
  }

  lemma ActorStays(c: Config, w: World, e: Event)
    requires Step(c, w, e) != w
    ensures e.p in Step(c, w, e).procs
  {
    if e.ReadSource? || e.ReadTarget? || e.Put? || e.WriteMore? {
      CopyingMoves(c, w, e);
    }
  }

  lemma StepOnlyMoves(c: Config, w: World, e: Event)
    requires Step(c, w, e) != w
    ensures OnlyMoves(c, w, Step(c, w, e), e.p)
  {
    StepGrows(c, w, e);
    ActorStays(c, w, e);
    forall q | q != e.p && q in Step(c, w, e).procs ensures q in w.procs && Step(c, w, e).procs[q] == w.procs[q] {
      OthersLeaveFrame(c, w, e, q);
    }
  }

  /** The process that stepped claims no asset that another list names. */
  ghost predicate ClaimsNothingNew(w: World, w': World, p: Pid)
    requires p in w'.procs
  {
    forall q :: q in w.procs && q != p ==> NoneShared(w'.procs[p], w.procs[q])
  }

  lemma ReportsFrame(c: Config, w: World, w': World, p: Pid)
    requires ReportsOk(c, w) && OnlyMoves(c, w, w', p) && ClaimsNothingNew(w, w', p)
    requires w'.procs[p].Batch? ==> ReportOk(c, w', w'.procs[p])
    ensures ReportsOk(c, w')
  {
    forall q | q in w'.procs && w'.procs[q].Batch? ensures ReportOk(c, w', w'.procs[q]) {
      if q != p {
        ReportKept(c, w, w', w.procs[q]);
      }
    }
    forall q, r | q in w'.procs && r in w'.procs && q != r ensures NoneShared(w'.procs[q], w'.procs[r]) {
      if q != p && r != p {
        assert NoneShared(w.procs[q], w.procs[r]);
      }
    }
  }

  lemma SameClaims(c: Config, w: World, w': World, p: Pid)
    requires ReportsOk(c, w) && p in w'.procs
    requires w'.procs[p].Batch? ==> p in w.procs && w.procs[p].Batch? && w'.procs[p].migrated == w.procs[p].migrated
    ensures ClaimsNothingNew(w, w', p)
  {
    forall q | q in w.procs && q != p ensures NoneShared(w'.procs[p], w.procs[q]) {
      if w'.procs[p].Batch? {
        assert NoneShared(w.procs[p], w.procs[q]);
      }
    }
  }

  /** One more id of the batch is on a list. */
  lemma OneMoreCounted(todo: seq<Item>, k: nat)
    requires k < |todo|
    ensures multiset(Ids(todo)[..k + 1]) == multiset(Ids(todo)[..k]) + multiset{todo[k].id}
  {
    assert Ids(todo)[..k + 1] == Ids(todo)[..k] + [todo[k].id];
  }

  lemma FailItemReports(c: Config, w: World, b: Proc)
    requires b.Batch? && b.next < |b.todo| && !b.at.Switched? && ReportOk(c, w, b)
    ensures ReportOk(c, w, FailItem(b))
  {
    OneMoreCounted(b.todo, b.next);
    assert multiset(b.failed + [b.todo[b.next].id]) == multiset(b.failed) + multiset{b.todo[b.next].id};
  }

  lemma SwitchReports(c: Config, w: World, p: Pid, io: Io)
    requires ReportsOk(c, w) && BatchAt(w, p) && w.procs[p].at.Stored?
    ensures ReportsOk(c, Step(c, w, Switch(p, io)))
  {
    var b := w.procs[p];
    var it := b.todo[b.next];
    var w' := Step(c, w, Switch(p, io));
    StepOnlyMoves(c, w, Switch(p, io));
    ReportKept(c, w, w', b);
    if w'.procs[p] == FailItem(b) {
      FailItemReports(c, w', b);
      SameClaims(c, w, w', p);
    } else {
      MigratedReports(c, w', b);
      forall q | q in w.procs && q != p ensures NoneShared(w'.procs[p], w.procs[q]) {
        assert NoneShared(b, w.procs[q]);
      }
    }
    ReportsFrame(c, w, w', p);
  }

  lemma MigratedReports(c: Config, w: World, b: Proc)
    requires b.Batch? && b.next < |b.todo| && !b.at.Switched? && ReportOk(c, w, b)
    requires b.todo[b.next].id in w.rows && w.rows[b.todo[b.next].id].loc == Target(c)
    ensures ReportOk(c, w, b.(migrated := b.migrated + [b.todo[b.next].id], at := Switched))
  {
    OneMoreCounted(b.todo, b.next);
    assert multiset(b.migrated + [b.todo[b.next].id]) == multiset(b.migrated) + multiset{b.todo[b.next].id};
  }

  lemma StartReports(c: Config, w: World, p: Pid, chosen: seq<Id>)
    requires ReportsOk(c, w) && p !in w.procs && Selectable(c, w, chosen)
    ensures ReportsOk(c, Step(c, w, StartBatch(p, chosen)))
  {
    assert Ids(Snapshot(w, chosen)) == chosen;
    forall i | 0 <= i < |chosen| ensures Snapshot(w, chosen)[i].row.loc != Target(c) {
      assert chosen[i] in chosen;
    }
    StepOnlyMoves(c, w, StartBatch(p, chosen));
    ReportsFrame(c, w, Step(c, w, StartBatch(p, chosen)), p);
  }

  lemma DeleteSourceReports(c: Config, w: World, p: Pid, io: Io)
    requires ReportsOk(c, w) && BatchAt(w, p) && w.procs[p].at.Switched?
    ensures ReportsOk(c, DoDeleteSource(c, w, p, io))
  {
    var b := w.procs[p];
    var w' := DoDeleteSource(c, w, p, io);
    ReportKept(c, w, w', b);
    TurnReports(c, w', b, w'.procs[p].warnings);
    SameClaims(c, w, w', p);
    ReportsFrame(c, w, w', p);
  }

  lemma TurnReports(c: Config, w: World, b: Proc, warnings: seq<Id>)
    requires b.Batch? && b.next < |b.todo| && b.at.Switched? && ReportOk(c, w, b)
    requires warnings == b.warnings || warnings == b.warnings + [b.todo[b.next].id]
    ensures ReportOk(c, w, b.(next := b.next + 1, at := Head, warnings := warnings))
  {
  }

  /** The lists of the batch that steps are as before, or its current asset has failed. */
  lemma CopyingReports(c: Config, w: World, e: Event)
    requires ReportsOk(c, w) && Step(c, w, e) != w
    requires e.ReadSource? || e.ReadTarget? || e.Put? || e.WriteMore?
    ensures ReportsOk(c, Step(c, w, e))
  {
    StepOnlyMoves(c, w, e);
    CopyingMoves(c, w, e);
    MovedReports(c, w, Step(c, w, e), e.p);
  }

  lemma MovedReports(c: Config, w: World, w': World, p: Pid)
    requires ReportsOk(c, w) && OnlyMoves(c, w, w', p)
    requires BatchAt(w, p) && !w.procs[p].at.Switched? && !w.procs[p].at.Reported?
    requires MovesOn(w.procs[p], w'.procs[p])
    ensures ReportsOk(c, w')
  {
    ReportKept(c, w, w', w.procs[p]);
    FailItemReports(c, w', w.procs[p]);
    SameClaims(c, w, w', p);
    ReportsFrame(c, w, w', p);
  }

  lemma ReportReports(c: Config, w: World, p: Pid)
    requires ReportsOk(c, w) && Step(c, w, Report(p)) != w
    ensures ReportsOk(c, Step(c, w, Report(p)))
  {
    var w' := Step(c, w, Report(p));
    StepOnlyMoves(c, w, Report(p));
    SameClaims(c, w, w', p);
    ReportKept(c, w, w', w.procs[p]);
    ReportsFrame(c, w, w', p);
  }

  lemma OthersReportNothing(c: Config, w: World, e: Event)
    requires ReportsOk(c, w) && Step(c, w, e) != w && !ByBatch(e)
    ensures ReportsOk(c, Step(c, w, e))
  {
    StepOnlyMoves(c, w, e);
    SameClaims(c, w, Step(c, w, e), e.p);
    ReportsFrame(c, w, Step(c, w, e), e.p);
  }

  lemma StepKeepsReports(c: Config, w: World, e: Event)
    requires ReportsOk(c, w)
    ensures ReportsOk(c, Step(c, w, e))
  {
    if Step(c, w, e) != w {
      if !ByBatch(e) {
        OthersReportNothing(c, w, e);
      } else {
        match e
        case StartBatch(p, chosen) => StartReports(c, w, p, chosen);
        case Switch(p, io) => SwitchReports(c, w, p, io);
        case DeleteSource(p, io) => DeleteSourceReports(c, w, p, io);
        case Report(p) => ReportReports(c, w, p);
        case _ => CopyingReports(c, w, e);
      }
    }
  }

  lemma AllCounted(c: Config, w: World, b: Proc)
    requires b.Batch? && b.at.Reported? && ReportOk(c, w, b)
    ensures multiset(b.migrated + b.failed) == multiset(Ids(b.todo)) && NoDuplicates(b.migrated + b.failed)
  {
    assert Ids(b.todo)[..|b.todo|] == Ids(b.todo);
    assert multiset(b.migrated + b.failed) == multiset(b.migrated) + multiset(b.failed);
    SameElements(b.migrated + b.failed, Ids(b.todo));
  }

  lemma {:induction false} CountOfDistinct(s: seq<Id>)
    ensures NoDuplicates(s) <==> forall id :: multiset(s)[id] <= 1
  {
    if s != [] {
      var h, t := s[0], s[1..];
      CountOfDistinct(t);
      assert s == [h] + t;
      assert multiset(s) == multiset{h} + multiset(t);
      if NoDuplicates(s) {
        forall i, j | 0 <= i < j < |t| ensures t[i] != t[j] {
          assert t[i] == s[i + 1] && t[j] == s[j + 1];
        }
        assert h !in t;
      } else {
        var i, j :| 0 <= i < j < |s| && s[i] == s[j];
        if i == 0 {
          assert h == t[j - 1] && h in t && h in multiset(t);
          assert multiset(s)[h] > 1;
        } else {
          assert t[i - 1] == t[j - 1];
          var id :| multiset(t)[id] > 1;
          assert multiset(s)[id] > 1;
        }
      }
    }
  }

  /** The two lists hold these ids, each in one of them. */
  ghost predicate Listed(migrated: seq<Id>, failed: seq<Id>, ids: seq<Id>) {
    multiset(migrated) + multiset(failed) == multiset(ids)
  }

  lemma ListedMore(migrated: seq<Id>, failed: seq<Id>, ids: seq<Id>, i: nat)
    requires i < |ids| && Listed(migrated, failed, ids[..i])
    ensures Listed(migrated + [ids[i]], failed, ids[..i + 1])
    ensures Listed(migrated, failed + [ids[i]], ids[..i + 1])
  {
    assert ids[..i + 1] == ids[..i] + [ids[i]];
  }

  lemma AllListed(migrated: seq<Id>, failed: seq<Id>, ids: seq<Id>)
    requires Listed(migrated, failed, ids[..|ids|]) && NoDuplicates(ids)
    ensures multiset(migrated + failed) == multiset(ids) && NoDuplicates(migrated + failed)
  {
    assert ids[..|ids|] == ids;
    SameElements(migrated + failed, ids);
  }

  lemma SameElements(s: seq<Id>, t: seq<Id>)
    requires multiset(s) == multiset(t) && NoDuplicates(t)
    ensures NoDuplicates(s)
  {
    CountOfDistinct(s);
    CountOfDistinct(t);
  }

  /**
    A report, whatever ran beside its batch: its two lists hold every chosen asset, each in one of them
    and once; warnings name migrated assets; a migrated asset is recorded at the target, and no other
    batch claims it.
  */
  lemma {:induction false} ReportsAddUp(c: Config, w: World, es: seq<Event>)
    requires w.procs == map[]
    ensures ReportsOk(c, Run(c, w, es))
    ensures var z := Run(c, w, es);
            forall p :: p in z.procs && z.procs[p].Batch? && z.procs[p].at.Reported? ==>
              && multiset(z.procs[p].migrated + z.procs[p].failed) == multiset(Ids(z.procs[p].todo))
              && NoDuplicates(z.procs[p].migrated + z.procs[p].failed)
  {
    if es != [] {
      ReportsAddUp(c, w, es[..|es| - 1]);
      StepKeepsReports(c, Run(c, w, es[..|es| - 1]), es[|es| - 1]);
    }
    var z := Run(c, w, es);
    forall p | p in z.procs && z.procs[p].Batch? && z.procs[p].at.Reported?
      ensures multiset(z.procs[p].migrated + z.procs[p].failed) == multiset(Ids(z.procs[p].todo))
      ensures NoDuplicates(z.procs[p].migrated + z.procs[p].failed)
    {
      AllCounted(c, z, z.procs[p]);
    }
  }

  // ---------------------------------------------------------------- why an asset is on a list

  /** It is the turn of asset `id` in batch `p`, which has got as far as a point of this kind. */
  predicate InTurn(w: World, p: Pid, id: Id) {
    BatchAt(w, p) && w.procs[p].todo[w.procs[p].next].id == id
  }

  /** The deletion of a source selected with driver S3 is answered with an error. */
  predicate Warns(w: World, e: Event, p: Pid, id: Id) {
    && e.DeleteSource? && e.p == p && e.io != Ok
    && InTurn(w, p, id) && w.procs[p].at.Switched?
    && w.procs[p].todo[w.procs[p].next].row.loc.driver == S3
  }

  /** The compare-and-set finds the row where it was selected, and its success is seen. */
  predicate Migrates(w: World, e: Event, p: Pid, id: Id) {
    && e == Switch(p, Ok)
    && InTurn(w, p, id) && w.procs[p].at.Stored?
    && id in w.rows && w.rows[id].loc == w.procs[p].todo[w.procs[p].next].row.loc
  }

  /** A request of the turn is answered with an error, or what it finds does not match. */
  predicate Fails(c: Config, w: World, e: Event, p: Pid, id: Id) {
    && InTurn(w, p, id) && e.p == p
    && var b := w.procs[p];
       var row := b.todo[b.next].row;
       var source, target := Cell(c, row), TargetCell(c, row);
       match e
       case ReadSource(_, io) =>
         && b.at.Head? && !row.loc.driver.Unknown?
         && !(io == Ok && source in w.objects && Accepted(c, w.objects[source], row))
       case ReadTarget(_, io) =>
         b.at.Loaded? && (io != Ok || (target in w.objects && (w.objects[target] != b.at.data || |b.at.data| > c.maxReadBytes)))
       case Put(_, io) =>
         b.at.Absent? && (io != Ok || |b.at.data| == 0 || |b.at.data| > c.maxBytes || (c.local && target in w.objects))
       case WriteMore(_, n, io) => b.at.Writing? && b.at.written <= n <= |b.at.data| && io != Ok
       case Switch(_, io) => b.at.Stored? && !(io == Ok && id in w.rows && w.rows[id].loc == row.loc)
       case _ => false
  }

  ghost predicate WarnsAt(c: Config, w: World, es: seq<Event>, k: nat, p: Pid, id: Id)
    requires k < |es|
  {
    Warns(Run(c, w, es[..k]), es[k], p, id)
  }

  ghost predicate MigratesAt(c: Config, w: World, es: seq<Event>, k: nat, p: Pid, id: Id)
    requires k < |es|
  {
    Migrates(Run(c, w, es[..k]), es[k], p, id)
  }

  ghost predicate FailsAt(c: Config, w: World, es: seq<Event>, k: nat, p: Pid, id: Id)
    requires k < |es|
  {
    Fails(c, Run(c, w, es[..k]), es[k], p, id)
  }

  /** Past its first read an asset has a known driver. */
  predicate KnownDriver(q: Proc) {
    q.Batch? && q.next < |q.todo| && !q.at.Head? ==> !q.todo[q.next].row.loc.driver.Unknown?
  }

  /** A batch is given up when its server crashes, or when it meets a driver that is neither local nor S3. */
  predicate GivesUp(w: World, e: Event, p: Pid) {
    || e == Crash(p)
    || (e.ReadSource? && e.p == p && BatchAt(w, p) && w.procs[p].at.Head?
        && w.procs[p].todo[w.procs[p].next].row.loc.driver == Unknown)
  }

  /** What a step of its own does to the lists of a batch, as far as `id` is concerned. */
  ghost predicate ListsAfter(c: Config, w: World, w': World, e: Event, p: Pid, id: Id)
    requires p in w.procs && w.procs[p].Batch? && p in w'.procs
  {
    && (w'.procs[p].Batch? <==> !GivesUp(w, e, p))
    && (w'.procs[p].Batch? ==>
      && (id in w'.procs[p].warnings <==> id in w.procs[p].warnings || Warns(w, e, p, id))
      && (id in w'.procs[p].migrated <==> id in w.procs[p].migrated || Migrates(w, e, p, id))
      && (id in w'.procs[p].failed <==> id in w.procs[p].failed || Fails(c, w, e, p, id))
      && KnownDriver(w'.procs[p]))
  }

  lemma ReadSourceLists(c: Config, w: World, p: Pid, io: Io, id: Id)
    requires BatchAt(w, p) && w.procs[p].at.Head?
    ensures p in DoReadSource(c, w, p, io).procs
    ensures ListsAfter(c, w, DoReadSource(c, w, p, io), ReadSource(p, io), p, id)
  {
  }

  lemma ReadTargetLists(c: Config, w: World, p: Pid, io: Io, id: Id)
    requires BatchAt(w, p) && w.procs[p].at.Loaded? && KnownDriver(w.procs[p])
    ensures p in DoReadTarget(c, w, p, io).procs
    ensures ListsAfter(c, w, DoReadTarget(c, w, p, io), ReadTarget(p, io), p, id)
  {
  }

  lemma PutLists(c: Config, w: World, p: Pid, io: Io, id: Id)
    requires BatchAt(w, p) && w.procs[p].at.Absent? && KnownDriver(w.procs[p])
    ensures p in DoPut(c, w, p, io).procs
    ensures ListsAfter(c, w, DoPut(c, w, p, io), Put(p, io), p, id)
  {
  }

  lemma WriteLists(c: Config, w: World, p: Pid, n: nat, io: Io, id: Id)
    requires BatchAt(w, p) && w.procs[p].at.Writing? && w.procs[p].at.written <= n <= |w.procs[p].at.data| && KnownDriver(w.procs[p])
    ensures p in DoWriteMore(c, w, p, n, io).procs
    ensures ListsAfter(c, w, DoWriteMore(c, w, p, n, io), WriteMore(p, n, io), p, id)
  {
  }

  lemma SwitchLists(c: Config, w: World, p: Pid, io: Io, id: Id)
    requires BatchAt(w, p) && w.procs[p].at.Stored? && KnownDriver(w.procs[p])
    ensures p in DoSwitch(c, w, p, io).procs
    ensures ListsAfter(c, w, DoSwitch(c, w, p, io), Switch(p, io), p, id)
  {
  }

  lemma DeleteSourceLists(c: Config, w: World, p: Pid, io: Io, id: Id)
    requires BatchAt(w, p) && w.procs[p].at.Switched? && KnownDriver(w.procs[p])
    ensures p in DoDeleteSource(c, w, p, io).procs
    ensures ListsAfter(c, w, DoDeleteSource(c, w, p, io), DeleteSource(p, io), p, id)
  {
  }

  predicate CopiesOrSwitches(e: Event) {
    e.ReadSource? || e.ReadTarget? || e.Put? || e.WriteMore? || e.Switch? || e.DeleteSource?
  }

  /** The other events of the process that runs a batch leave its lists alone. */
  lemma RestLists(c: Config, w: World, e: Event, id: Id)
    requires e.p in w.procs && w.procs[e.p].Batch? && KnownDriver(w.procs[e.p]) && !CopiesOrSwitches(e)
    ensures e.p in Step(c, w, e).procs && ListsAfter(c, w, Step(c, w, e), e, e.p, id)
  {
  }

  lemma OwnLists(c: Config, w: World, e: Event, id: Id)
    requires e.p in w.procs && w.procs[e.p].Batch? && KnownDriver(w.procs[e.p])
    ensures e.p in Step(c, w, e).procs && ListsAfter(c, w, Step(c, w, e), e, e.p, id)
  {
    if !CopiesOrSwitches(e) {
      RestLists(c, w, e, id);
    } else if BatchAt(w, e.p) {
      match e
      case ReadSource(p, io) => if w.procs[p].at.Head? { ReadSourceLists(c, w, p, io, id); }
      case ReadTarget(p, io) => if w.procs[p].at.Loaded? { ReadTargetLists(c, w, p, io, id); }
      case Put(p, io) => if w.procs[p].at.Absent? { PutLists(c, w, p, io, id); }
      case WriteMore(p, n, io) =>
        if w.procs[p].at.Writing? && w.procs[p].at.written <= n <= |w.procs[p].at.data| { WriteLists(c, w, p, n, io, id); }
      case Switch(p, io) => if w.procs[p].at.Stored? { SwitchLists(c, w, p, io, id); }
      case DeleteSource(p, io) => if w.procs[p].at.Switched? { DeleteSourceLists(c, w, p, io, id); }
    }
  }

  /** A batch begins with empty lists, and only where there was no process. */
  lemma NewBatchIsEmpty(c: Config, w: World, e: Event, p: Pid)
    requires p !in w.procs || !w.procs[p].Batch?
    requires p in Step(c, w, e).procs && Step(c, w, e).procs[p].Batch?
    ensures p !in w.procs
    ensures var b := Step(c, w, e).procs[p]; b.warnings == [] && b.migrated == [] && b.failed == [] && KnownDriver(b)
  {
    if e.p != p {
      OthersLeaveFrame(c, w, e, p);
    }
  }

  lemma ProcessesStay(c: Config, w: World, e: Event, p: Pid)
    requires p in w.procs
    ensures p in Step(c, w, e).procs
  {
    if e.p != p {
      OthersLeaveFrame(c, w, e, p);
    } else if Step(c, w, e) != w {
      ActorStays(c, w, e);
    }
  }

  /** Some event of the schedule warns of, migrates, or fails asset `id` in batch `p`. */
  ghost predicate Warned(c: Config, w: World, es: seq<Event>, p: Pid, id: Id) {
    exists k | 0 <= k < |es| :: WarnsAt(c, w, es, k, p, id)
  }

  ghost predicate WasMigrated(c: Config, w: World, es: seq<Event>, p: Pid, id: Id) {
    exists k | 0 <= k < |es| :: MigratesAt(c, w, es, k, p, id)
  }

  ghost predicate HasFailed(c: Config, w: World, es: seq<Event>, p: Pid, id: Id) {
    exists k | 0 <= k < |es| :: FailsAt(c, w, es, k, p, id)
  }

  lemma WarnedGrows(c: Config, w: World, es: seq<Event>, p: Pid, id: Id)
    requires es != []
    ensures Warned(c, w, es, p, id) <==> Warned(c, w, es[..|es| - 1], p, id) || WarnsAt(c, w, es, |es| - 1, p, id)
  {
    var shorter := es[..|es| - 1];
    forall k | 0 <= k < |shorter| ensures WarnsAt(c, w, es, k, p, id) <==> WarnsAt(c, w, shorter, k, p, id) {
      assert shorter[..k] == es[..k];
    }
  }

  lemma MigratedGrows(c: Config, w: World, es: seq<Event>, p: Pid, id: Id)
    requires es != []
    ensures WasMigrated(c, w, es, p, id) <==> WasMigrated(c, w, es[..|es| - 1], p, id) || MigratesAt(c, w, es, |es| - 1, p, id)
  {
    var shorter := es[..|es| - 1];
    forall k | 0 <= k < |shorter| ensures MigratesAt(c, w, es, k, p, id) <==> MigratesAt(c, w, shorter, k, p, id) {
      assert shorter[..k] == es[..k];
    }
  }

  lemma FailedGrows(c: Config, w: World, es: seq<Event>, p: Pid, id: Id)
    requires es != []
    ensures HasFailed(c, w, es, p, id) <==> HasFailed(c, w, es[..|es| - 1], p, id) || FailsAt(c, w, es, |es| - 1, p, id)
  {
    var shorter := es[..|es| - 1];
    forall k | 0 <= k < |shorter| ensures FailsAt(c, w, es, k, p, id) <==> FailsAt(c, w, shorter, k, p, id) {
      assert shorter[..k] == es[..k];
    }
  }

  /** The lists of process `p` say of `id` what the schedule did, and before its batch it did nothing. */
  ghost predicate ListsTell(c: Config, w: World, es: seq<Event>, p: Pid, id: Id) {
    var z := Run(c, w, es);
    && (p !in z.procs ==> !Warned(c, w, es, p, id) && !WasMigrated(c, w, es, p, id) && !HasFailed(c, w, es, p, id))
    && (p in z.procs && z.procs[p].Batch? ==>
          && KnownDriver(z.procs[p])
          && (id in z.procs[p].warnings <==> Warned(c, w, es, p, id))
          && (id in z.procs[p].migrated <==> WasMigrated(c, w, es, p, id))
          && (id in z.procs[p].failed <==> HasFailed(c, w, es, p, id)))
  }

  lemma OneMoreTells(c: Config, w: World, es: seq<Event>, p: Pid, id: Id)
    requires es != [] && ListsTell(c, w, es[..|es| - 1], p, id)
    ensures ListsTell(c, w, es, p, id)
  {
    var y, e := Run(c, w, es[..|es| - 1]), es[|es| - 1];
    WarnedGrows(c, w, es, p, id);
    MigratedGrows(c, w, es, p, id);
    FailedGrows(c, w, es, p, id);
    if p !in y.procs {
      if p in Step(c, y, e).procs && Step(c, y, e).procs[p].Batch? { NewBatchIsEmpty(c, y, e, p); }
    } else {
      ProcessesStay(c, y, e, p);
      if !y.procs[p].Batch? {
        if Step(c, y, e).procs[p].Batch? { NewBatchIsEmpty(c, y, e, p); }
      } else if e.p != p {
        OthersLeaveFrame(c, y, e, p);
      } else {
        OwnLists(c, y, e, id);
      }
    }
  }

  /**
    The three lists of a batch, in every run. An asset is in the warnings exactly when, in its turn, a
    deletion of its source was answered with an error and the row had been selected with driver S3; it
    is migrated exactly when, in its turn, a successful compare-and-set found the row where it had been
    selected; and it has failed exactly when, in its turn, a request failed or found something else.
  */
  lemma {:induction false} ListsAreExact(c: Config, w: World, es: seq<Event>, p: Pid, id: Id)
    requires p !in w.procs
    ensures ListsTell(c, w, es, p, id)
  {
    if es != [] {
      ListsAreExact(c, w, es[..|es| - 1], p, id);
      OneMoreTells(c, w, es, p, id);
    }
  }

  // ---------------------------------------------------------------- what a batch achieves when left alone

  /** The source passes the checks; the target holds the same bytes, or nothing and takes that many. */
  predicate Movable(c: Config, w: World, row: Row) {
    && Cell(c, row) in w.objects && Accepted(c, w.objects[Cell(c, row)], row)
    && if TargetCell(c, row) in w.objects then w.objects[TargetCell(c, row)] == w.objects[Cell(c, row)]
       else 0 < |w.objects[Cell(c, row)]| <= c.maxBytes
  }

  /** The requests for one asset, all of which succeed; those its turn has no use for do nothing. */
  function Turn(p: Pid, row: Row): seq<Event> {
    [ReadSource(p, Ok), ReadTarget(p, Ok), Put(p, Ok), WriteMore(p, row.size, Ok), Switch(p, Ok), DeleteSource(p, Ok)]
  }

  function Turns(p: Pid, todo: seq<Item>): seq<Event> {
    if todo == [] then [] else Turns(p, todo[..|todo| - 1]) + Turn(p, todo[|todo| - 1].row)
  }

  /** A batch with nobody beside it and no failing request. */
  function Undisturbed(p: Pid, w: World, chosen: seq<Id>): seq<Event>
    requires forall id :: id in chosen ==> id in w.rows
  {
    [StartBatch(p, chosen)] + Turns(p, Snapshot(w, chosen)) + [Report(p)]
  }

  lemma {:induction false} RunAppend(c: Config, w: World, es: seq<Event>, fs: seq<Event>)
    ensures Run(c, w, es + fs) == Run(c, Run(c, w, es), fs)
  {
    if fs == [] {
      assert es + fs == es;
    } else {
      var gs := fs[..|fs| - 1];
      RunAppend(c, w, es, gs);
      assert es + fs == (es + gs) + [fs[|fs| - 1]];
      RunOne(c, w, es + gs, fs[|fs| - 1]);
    }
  }

  /** The batch is about to begin with a row nobody has changed since. */
  ghost predicate AtTurn(w: World, p: Pid, it: Item) {
    && BatchAt(w, p) && w.procs[p].at.Head? && w.procs[p].todo[w.procs[p].next] == it
    && it.id in w.rows && w.rows[it.id] == it.row && !it.row.loc.driver.Unknown?
  }

  function CopiedTo(c: Config, w: World, row: Row): World
    requires Cell(c, row) in w.objects
  {
    w.(objects := w.objects[TargetCell(c, row) := w.objects[Cell(c, row)]])
  }

  lemma MovableIsRead(c: Config, w: World, p: Pid, it: Item)
    requires AtTurn(w, p, it) && Movable(c, w, it.row)
    ensures Step(c, w, ReadSource(p, Ok)) == Go(w, p, w.procs[p].(at := Loaded(w.objects[Cell(c, it.row)])))
  {
  }

  lemma MovableIsPut(c: Config, w: World, p: Pid, it: Item)
    requires AtTurn(w, p, it) && Movable(c, w, it.row)
    ensures var data := w.objects[Cell(c, it.row)];
            var y := Go(w, p, w.procs[p].(at := Loaded(data)));
            Go(CopiedTo(c, w, it.row), p, w.procs[p].(at := Stored(data)))
            == Step(c, Step(c, Step(c, y, ReadTarget(p, Ok)), Put(p, Ok)), WriteMore(p, it.row.size, Ok))
  {
    var data := w.objects[Cell(c, it.row)];
    var y := Go(w, p, w.procs[p].(at := Loaded(data)));
    var cell := TargetCell(c, it.row);
    if cell in w.objects {
      assert w.objects[cell := data] == w.objects;
    } else {
      var x := Go(w, p, w.procs[p].(at := Absent(data)));
      assert Step(c, y, ReadTarget(p, Ok)) == x;
      MissingIsPut(c, x, p, it.row.size);
      assert w.objects[cell := []][cell := data] == w.objects[cell := data];
    }
  }

  lemma MissingIsPut(c: Config, w: World, p: Pid, size: nat)
    requires BatchAt(w, p) && w.procs[p].at.Absent?
    requires TargetCell(c, w.procs[p].todo[w.procs[p].next].row) !in w.objects
    requires 0 < size == |w.procs[p].at.data| <= c.maxBytes
    ensures Step(c, Step(c, w, Put(p, Ok)), WriteMore(p, size, Ok))
         == Go(w.(objects := w.objects[TargetCell(c, w.procs[p].todo[w.procs[p].next].row) := w.procs[p].at.data]), p,
               w.procs[p].(at := Stored(w.procs[p].at.data)))
  {
    var data := w.procs[p].at.data;
    var cell := TargetCell(c, w.procs[p].todo[w.procs[p].next].row);
    if c.local {
      var x := Go(w.(objects := w.objects[cell := []]), p, w.procs[p].(at := Writing(data, 0)));
      assert Step(c, w, Put(p, Ok)) == x;
      assert data[..size] == data;
      assert Step(c, x, WriteMore(p, size, Ok)).objects == w.objects[cell := data];
    }
  }

  /** The row has moved and the source is gone. */
  function SwitchedTo(c: Config, w: World, p: Pid, it: Item, data: Bytes): World
    requires BatchAt(w, p)
  {
    var b := w.procs[p];
    Go(w.(objects := w.objects - {Cell(c, it.row)},
          rows := w.rows[it.id := it.row.(loc := Target(c), checksum := Some(Sha256(data)))]), p,
       b.(next := b.next + 1, at := Head, migrated := b.migrated + [it.id]))
  }

  lemma StoredIsSwitched(c: Config, w: World, p: Pid, it: Item, data: Bytes)
    requires AtTurn(w, p, it)
    ensures var b := w.procs[p];
            Step(c, Step(c, Go(w, p, b.(at := Stored(data))), Switch(p, Ok)), DeleteSource(p, Ok)) == SwitchedTo(c, w, p, it, data)
  {
    var b := w.procs[p];
    var x := Go(w, p, b.(at := Stored(data)));
    var y := Go(w.(rows := w.rows[it.id := it.row.(loc := Target(c), checksum := Some(Sha256(data)))]), p,
                b.(at := Switched, migrated := b.migrated + [it.id]));
    assert Step(c, x, Switch(p, Ok)) == y;
  }

  /** The world after the turn of an asset that could be moved. */
  function Moved(c: Config, w: World, p: Pid, it: Item): World
    requires BatchAt(w, p) && Cell(c, it.row) in w.objects
  {
    SwitchedTo(c, CopiedTo(c, w, it.row), p, it, w.objects[Cell(c, it.row)])
  }

  function SixSteps(c: Config, w: World, es: seq<Event>): World
    requires |es| == 6
  {
    Step(c, Step(c, Step(c, Step(c, Step(c, Step(c, w, es[0]), es[1]), es[2]), es[3]), es[4]), es[5])
  }

  lemma RunSix(c: Config, w: World, es: seq<Event>)
    requires |es| == 6
    ensures Run(c, w, es) == SixSteps(c, w, es)
  {
    ThreeSteps(c, w, es[0], es[1], es[2]);
    ThreeSteps(c, Run(c, w, es[..3]), es[3], es[4], es[5]);
    assert es[..3] == [es[0], es[1], es[2]] && es[3..] == [es[3], es[4], es[5]] && es == es[..3] + es[3..];
    RunAppend(c, w, es[..3], es[3..]);
  }

  lemma MovableIsMoved(c: Config, w: World, p: Pid, it: Item)
    requires AtTurn(w, p, it) && Movable(c, w, it.row)
    ensures Run(c, w, Turn(p, it.row)) == Moved(c, w, p, it)
  {
    MovableIsRead(c, w, p, it);
    MovableIsPut(c, w, p, it);
    StoredIsSwitched(c, CopiedTo(c, w, it.row), p, it, w.objects[Cell(c, it.row)]);
    RunSix(c, w, Turn(p, it.row));
  }

  /** Nothing happens to a batch at the head of its loop but reading. */
  lemma HeadWaits(c: Config, w: World, p: Pid, e: Event)
    requires p in w.procs && w.procs[p].Batch? && w.procs[p].at.Head?
    requires e == ReadTarget(p, Ok) || e == Put(p, Ok) || e == Switch(p, Ok) || e == DeleteSource(p, Ok)
             || (e.WriteMore? && e.p == p)
    ensures Step(c, w, e) == w
  {
  }

  lemma OtherwiseFails(c: Config, w: World, p: Pid, it: Item)
    requires AtTurn(w, p, it) && !Movable(c, w, it.row)
    ensures Run(c, w, Turn(p, it.row)) == Go(w, p, FailItem(w.procs[p]))
  {
    var es, z := Turn(p, it.row), Go(w, p, FailItem(w.procs[p]));
    RunSix(c, w, es);
    HeadWaits(c, z, p, es[1]);
    HeadWaits(c, z, p, es[2]);
    HeadWaits(c, z, p, es[3]);
    HeadWaits(c, z, p, es[4]);
    HeadWaits(c, z, p, es[5]);
    FailsSomewhere(c, w, p, it);
  }

  lemma FailsSomewhere(c: Config, w: World, p: Pid, it: Item)
    requires AtTurn(w, p, it) && !Movable(c, w, it.row)
    ensures var es, z := Turn(p, it.row), Go(w, p, FailItem(w.procs[p]));
            var x := Step(c, w, es[0]);
            x == z || Step(c, x, es[1]) == z || Step(c, Step(c, x, es[1]), es[2]) == z
  {
    var cell := Cell(c, it.row);
    if cell in w.objects && Accepted(c, w.objects[cell], it.row) {
      var x := Go(w, p, w.procs[p].(at := Loaded(w.objects[cell])));
      assert Step(c, w, ReadSource(p, Ok)) == x;
      LoadedFails(c, x, p, it);
    }
  }

  lemma LoadedFails(c: Config, w: World, p: Pid, it: Item)
    requires BatchAt(w, p) && w.procs[p].at.Loaded? && w.procs[p].todo[w.procs[p].next] == it
    requires var data := w.procs[p].at.data;
             if TargetCell(c, it.row) in w.objects then w.objects[TargetCell(c, it.row)] != data
             else |data| == 0 || |data| > c.maxBytes
    ensures var x, z := Step(c, w, ReadTarget(p, Ok)), Go(w, p, FailItem(w.procs[p]));
            x == z || Step(c, x, Put(p, Ok)) == z
  {
  }

  ghost predicate SameObjects(w: World, z: World, key: Key) {
    forall pl :: ((pl, key) in z.objects <==> (pl, key) in w.objects)
                 && ((pl, key) in w.objects ==> z.objects[(pl, key)] == w.objects[(pl, key)])
  }

  /**
    A movable asset has its bytes at the target and no longer at the source, and its row says so; any other
    is as it was.
  */
  ghost predicate Outcome(c: Config, w: World, z: World, id: Id)
    requires id in w.rows
  {
    var row := w.rows[id];
    id in z.rows &&
    if Movable(c, w, row) then
      && z.rows[id] == row.(loc := Target(c), checksum := Some(Sha256(w.objects[Cell(c, row)])))
      && TargetCell(c, row) in z.objects && z.objects[TargetCell(c, row)] == w.objects[Cell(c, row)]
      && Cell(c, row) !in z.objects
    else z.rows[id] == row && SameObjects(w, z, row.key)
  }

  /** Only assets the batch may take: known drivers, and no row that aliases the target. */
  ghost predicate Plain(c: Config, w: World, chosen: seq<Id>) {
    && Selectable(c, w, chosen)
    && forall i :: 0 <= i < |chosen| ==>
         chosen[i] in w.rows && !w.rows[chosen[i]].loc.driver.Unknown? && !Aliased(c, w.rows[chosen[i]])
  }

  /** The first `k` assets have had their turns, the others are untouched. */
  ghost predicate Progress(c: Config, w: World, z: World, chosen: seq<Id>, k: nat)
    requires k <= |chosen| && Plain(c, w, chosen)
  {
    && z.rows.Keys == w.rows.Keys
    && (forall i :: 0 <= i < k ==> Outcome(c, w, z, chosen[i]))
    && (forall id :: id in w.rows && id !in chosen[..k] ==> Untouched(w, z, id))
  }

  ghost predicate Untouched(w: World, z: World, id: Id)
    requires id in w.rows
  {
    id in z.rows && z.rows[id] == w.rows[id] && SameObjects(w, z, w.rows[id].key)
  }

  ghost predicate ListsSay(c: Config, w: World, b: Proc, chosen: seq<Id>, k: nat)
    requires k <= |chosen| && Plain(c, w, chosen)
  {
    && b.Batch? && b == Batch(Snapshot(w, chosen), k, Head, b.migrated, b.failed, [])
    && (forall id :: id in b.migrated <==> id in chosen[..k] && Movable(c, w, w.rows[id]))
    && (forall id :: id in b.failed <==> id in chosen[..k] && !Movable(c, w, w.rows[id]))
  }

  ghost predicate AfterTurns(c: Config, w: World, z: World, p: Pid, chosen: seq<Id>, k: nat)
    requires k <= |chosen| && Plain(c, w, chosen)
  {
    p in z.procs && ListsSay(c, w, z.procs[p], chosen, k) && Progress(c, w, z, chosen, k)
  }

  lemma ChosenGrows(chosen: seq<Id>, k: nat)
    requires k < |chosen| && NoDuplicates(chosen)
    ensures forall id :: id in chosen[..k + 1] <==> id in chosen[..k] || id == chosen[k]
    ensures chosen[k] !in chosen[..k]
  {
    assert chosen[..k + 1] == chosen[..k] + [chosen[k]];
  }

  lemma ListsGrow(c: Config, w: World, b: Proc, chosen: seq<Id>, k: nat)
    requires k < |chosen| && Plain(c, w, chosen) && ListsSay(c, w, b, chosen, k)
    ensures Movable(c, w, w.rows[chosen[k]]) ==>
              ListsSay(c, w, b.(next := k + 1, migrated := b.migrated + [chosen[k]]), chosen, k + 1)
    ensures !Movable(c, w, w.rows[chosen[k]]) ==> ListsSay(c, w, FailItem(b), chosen, k + 1)
  {
    ChosenGrows(chosen, k);
  }

  /** Outcomes stand when later turns touch other keys. */
  lemma OutcomeKept(c: Config, w: World, z: World, z': World, id: Id)
    requires id in w.rows && Outcome(c, w, z, id)
    requires id in z'.rows && z'.rows[id] == z.rows[id] && SameObjects(z, z', w.rows[id].key)
    ensures Outcome(c, w, z', id)
  {
  }

  lemma UntouchedStill(w: World, z: World, z': World, id: Id)
    requires id in w.rows && Untouched(w, z, id)
    requires id in z'.rows && z'.rows[id] == z.rows[id] && SameObjects(z, z', w.rows[id].key)
    ensures Untouched(w, z', id)
  {
  }

  /** A turn that ends rightly for its own asset and leaves every other row and key alone. */
  lemma ProgressGrows(c: Config, w: World, z: World, z': World, chosen: seq<Id>, k: nat)
    requires k < |chosen| && Plain(c, w, chosen) && Progress(c, w, z, chosen, k)
    requires z'.rows.Keys == z.rows.Keys && Outcome(c, w, z', chosen[k])
    requires forall id :: id in w.rows && id != chosen[k] ==>
               z'.rows[id] == z.rows[id] && SameObjects(z, z', w.rows[id].key)
    ensures Progress(c, w, z', chosen, k + 1)
  {
    ChosenGrows(chosen, k);
    forall i | 0 <= i < k + 1 ensures Outcome(c, w, z', chosen[i]) {
      if i < k {
        OutcomeKept(c, w, z, z', chosen[i]);
      }
    }
    forall id | id in w.rows && id !in chosen[..k + 1] ensures Untouched(w, z', id) {
      UntouchedStill(w, z, z', id);
    }
  }

  lemma MovedOutcome(c: Config, w: World, z: World, p: Pid, id: Id)
    requires id in w.rows && Untouched(w, z, id) && Movable(c, w, w.rows[id]) && !Aliased(c, w.rows[id])
    requires w.rows[id].loc != Target(c) && BatchAt(z, p)
    ensures Cell(c, w.rows[id]) in z.objects && Outcome(c, w, Moved(c, z, p, Item(id, w.rows[id])), id)
  {
  }

  lemma MovedElsewhere(c: Config, z: World, p: Pid, it: Item, key: Key)
    requires BatchAt(z, p) && Cell(c, it.row) in z.objects && key != it.row.key
    ensures SameObjects(z, Moved(c, z, p, it), key)
  {
  }

  lemma OneMoreMoved(c: Config, w: World, z: World, p: Pid, chosen: seq<Id>, k: nat)
    requires k < |chosen| && KeysUnique(w) && Plain(c, w, chosen) && Progress(c, w, z, chosen, k) && BatchAt(z, p)
    requires Movable(c, w, w.rows[chosen[k]]) && chosen[k] in chosen
    ensures Cell(c, w.rows[chosen[k]]) in z.objects
    ensures Progress(c, w, Moved(c, z, p, Item(chosen[k], w.rows[chosen[k]])), chosen, k + 1)
  {
    var it := Item(chosen[k], w.rows[chosen[k]]);
    ChosenGrows(chosen, k);
    assert Untouched(w, z, it.id);
    MovedOutcome(c, w, z, p, it.id);
    var z' := Moved(c, z, p, it);
    forall id | id in w.rows && id != it.id ensures z'.rows[id] == z.rows[id] && SameObjects(z, z', w.rows[id].key) {
      MovedElsewhere(c, z, p, it, w.rows[id].key);
    }
    ProgressGrows(c, w, z, z', chosen, k);
  }

  lemma TurnMoves(c: Config, w: World, z: World, p: Pid, chosen: seq<Id>, k: nat, it: Item)
    requires k < |chosen| && KeysUnique(w) && Plain(c, w, chosen) && AfterTurns(c, w, z, p, chosen, k)
    requires it.id == chosen[k] && it.id in chosen && it.row == w.rows[it.id]
    requires AtTurn(z, p, it) && Movable(c, w, it.row) && Movable(c, z, it.row)
    ensures AfterTurns(c, w, Run(c, z, Turn(p, it.row)), p, chosen, k + 1)
  {
    MovableIsMoved(c, z, p, it);
    OneMoreMoved(c, w, z, p, chosen, k);
    ListsGrow(c, w, z.procs[p], chosen, k);
  }

  lemma TurnFails(c: Config, w: World, z: World, p: Pid, chosen: seq<Id>, k: nat, it: Item)
    requires k < |chosen| && Plain(c, w, chosen) && AfterTurns(c, w, z, p, chosen, k)
    requires it.id == chosen[k] && it.row == w.rows[it.id] && Untouched(w, z, it.id)
    requires AtTurn(z, p, it) && !Movable(c, w, it.row) && !Movable(c, z, it.row)
    ensures AfterTurns(c, w, Run(c, z, Turn(p, it.row)), p, chosen, k + 1)
  {
    OtherwiseFails(c, z, p, it);
    ListsGrow(c, w, z.procs[p], chosen, k);
    ProgressGrows(c, w, z, Go(z, p, FailItem(z.procs[p])), chosen, k);
  }

  lemma OneMoreTurn(c: Config, w: World, z: World, p: Pid, chosen: seq<Id>, k: nat)
    requires k < |chosen| && KeysUnique(w) && Plain(c, w, chosen) && AfterTurns(c, w, z, p, chosen, k)
    ensures AfterTurns(c, w, Run(c, z, Turn(p, w.rows[chosen[k]])), p, chosen, k + 1)
  {
    var it := Item(chosen[k], w.rows[chosen[k]]);
    ChosenGrows(chosen, k);
    assert chosen[k] in chosen && Untouched(w, z, it.id);
    SameIsMovable(c, w, z, it.row);
    if Movable(c, w, it.row) {
      TurnMoves(c, w, z, p, chosen, k, it);
    } else {
      TurnFails(c, w, z, p, chosen, k, it);
    }
  }

  lemma SameIsMovable(c: Config, w: World, z: World, row: Row)
    requires SameObjects(w, z, row.key)
    ensures Movable(c, w, row) <==> Movable(c, z, row)
  {
  }

  lemma BatchBegins(c: Config, w: World, p: Pid, chosen: seq<Id>)
    requires Plain(c, w, chosen) && p !in w.procs
    ensures AfterTurns(c, w, Step(c, w, StartBatch(p, chosen)), p, chosen, 0)
  {
    var y := Go(w, p, Batch(Snapshot(w, chosen), 0, Head, [], [], []));
    assert Step(c, w, StartBatch(p, chosen)) == y;
    assert Progress(c, w, y, chosen, 0);
  }

  lemma OneMoreInTurns(c: Config, y: World, p: Pid, todo: seq<Item>, k: nat)
    requires k < |todo|
    ensures Run(c, y, Turns(p, todo[..k + 1])) == Run(c, Run(c, y, Turns(p, todo[..k])), Turn(p, todo[k].row))
  {
    assert todo[..k + 1][..k] == todo[..k];
    RunAppend(c, y, Turns(p, todo[..k]), Turn(p, todo[k].row));
  }

  lemma {:induction false} AllTurns(c: Config, w: World, y: World, p: Pid, chosen: seq<Id>, k: nat)
    requires k <= |chosen| && KeysUnique(w) && Plain(c, w, chosen) && AfterTurns(c, w, y, p, chosen, 0)
    ensures AfterTurns(c, w, Run(c, y, Turns(p, Snapshot(w, chosen)[..k])), p, chosen, k)
  {
    if k != 0 {
      AllTurns(c, w, y, p, chosen, k - 1);
      var todo := Snapshot(w, chosen);
      OneMoreTurn(c, w, Run(c, y, Turns(p, todo[..k - 1])), p, chosen, k - 1);
      OneMoreInTurns(c, y, p, todo, k - 1);
    }
  }

  lemma FromStartToReport(c: Config, w: World, e: Event, es: seq<Event>, f: Event)
    ensures Run(c, w, [e] + es + [f]) == Step(c, Run(c, Step(c, w, e), es), f)
  {
    RunOne(c, w, [], e);
    assert [] + [e] == [e];
    RunAppend(c, w, [e], es);
    RunOne(c, w, [e] + es, f);
  }

  lemma ReportEnds(c: Config, w: World, y: World, p: Pid, chosen: seq<Id>)
    requires Plain(c, w, chosen) && AfterTurns(c, w, y, p, chosen, |chosen|)
    ensures var z := Step(c, y, Report(p));
            && p in z.procs && z.procs[p].Batch? && z.procs[p].at.Reported?
            && (forall id :: id in z.procs[p].migrated <==> id in chosen && Movable(c, w, w.rows[id]))
            && (forall id :: id in z.procs[p].failed <==> id in chosen && !Movable(c, w, w.rows[id]))
            && (forall id :: id in chosen ==> Outcome(c, w, z, id))
            && (forall id :: id in w.rows && id !in chosen ==> Untouched(w, z, id))
  {
    var z := Go(y, p, y.procs[p].(at := Reported));
    assert Step(c, y, Report(p)) == z;
    assert chosen[..|chosen|] == chosen;
    forall id | id in chosen ensures Outcome(c, w, z, id) {
      var i :| 0 <= i < |chosen| && chosen[i] == id;
      OutcomeKept(c, w, y, z, chosen[i]);
    }
    forall id | id in w.rows && id !in chosen ensures Untouched(w, z, id) {
      UntouchedStill(w, y, z, id);
    }
  }

  /**
    Left alone, with no request failing, a batch moves what can be moved: the bytes end up at the target
    under a row that says so, the source is gone, and the report lists every other asset as failed,
    untouched. Nothing outside the batch changes.
  */
  lemma UndisturbedBatch(c: Config, w: World, p: Pid, chosen: seq<Id>)
    requires p !in w.procs && KeysUnique(w) && Plain(c, w, chosen)
    ensures var z := Run(c, w, Undisturbed(p, w, chosen));
            && p in z.procs && z.procs[p].Batch? && z.procs[p].at.Reported?
            && (forall id :: id in z.procs[p].migrated <==> id in chosen && Movable(c, w, w.rows[id]))
            && (forall id :: id in z.procs[p].failed <==> id in chosen && !Movable(c, w, w.rows[id]))
            && (forall id :: id in chosen ==> Outcome(c, w, z, id))
            && (forall id :: id in w.rows && id !in chosen ==> Untouched(w, z, id))
  {
    var y, todo := Step(c, w, StartBatch(p, chosen)), Snapshot(w, chosen);
    BatchBegins(c, w, p, chosen);
    AllTurns(c, w, y, p, chosen, |chosen|);
    assert todo[..|chosen|] == todo;
    ReportEnds(c, w, Run(c, y, Turns(p, todo)), p, chosen);
    FromStartToReport(c, w, StartBatch(p, chosen), Turns(p, todo), Report(p));
  }

  // ---------------------------------------------------------------- uploads and deletions left alone

  /** An upload nobody disturbs leaves a live row that finds its bytes, and touches no other asset. */
  lemma UndisturbedStore(c: Config, w: World, p: Pid, key: Key, data: Bytes, generated: bool, id: Id)
    requires p !in w.procs && FreshKey(w, key) && id !in w.rows && 0 < |data| <= c.maxBytes
    ensures var z := Run(c, w, [StartStore(p, key, data, generated), PutNew(p, Ok), CreateRow(p, id, Ok)]);
            && Live(z, id) && Finds(c, z, id) && z.original[id] == data
            && z.rows == w.rows[id := Row(key, Target(c), |data|, Some(Sha256(data)), false)]
            && z.objects == w.objects[(Physical(c, Target(c)), key) := data]
            && p in z.procs && z.procs[p] == Stopped
  {
    ThreeSteps(c, w, StartStore(p, key, data, generated), PutNew(p, Ok), CreateRow(p, id, Ok));
  }

  /** A deletion nobody disturbs marks the row and takes the object from where the row said it was. */
  lemma UndisturbedRemove(c: Config, w: World, p: Pid, id: Id)
    requires p !in w.procs && id in w.rows && !w.rows[id].deleted
    ensures var z := Run(c, w, [StartRemove(p, id), MarkDeleted(p, Ok), DeleteRemoved(p, Ok)]);
            && z.rows == w.rows[id := w.rows[id].(deleted := true)]
            && z.objects == w.objects - {Cell(c, w.rows[id])}
            && p in z.procs && z.procs[p] == Stopped
  {
    ThreeSteps(c, w, StartRemove(p, id), MarkDeleted(p, Ok), DeleteRemoved(p, Ok));
  }

  // ---------------------------------------------------------------- the program

  /** What the world does around one process: how its requests end, how far writes get, who runs in between. */
  datatype Env = Env(io: nat -> Io, chunk: nat -> nat, others: nat -> seq<Event>)

  ghost predicate Elsewhere(env: Env, p: Pid) {
    forall k, i :: 0 <= i < |env.others(k)| ==> env.others(k)[i].p != p
  }

  lemma Recorded(c: Config, w: World, es: seq<Event>, e: Event, now: World)
    requires now == Step(c, Run(c, w, es), e)
    ensures now == Run(c, w, es + [e])
  {
    RunOne(c, w, es, e);
  }

  /** The row of the asset whose turn it is, as selected. */
  function CurrentRow(b: Proc): Row
    requires b.Batch? && b.next < |b.todo|
  {
    b.todo[b.next].row
  }

  /** Asset `id` is on each list exactly when the schedule put it there. */
  ghost predicate ListsExplained(c: Config, w: World, es: seq<Event>, p: Pid, id: Id, migrated: seq<Id>,
      failed: seq<Id>, warnings: seq<Id>) {
    && (id in warnings <==> exists k | 0 <= k < |es| :: WarnsAt(c, w, es, k, p, id))
    && (id in migrated <==> exists k | 0 <= k < |es| :: MigratesAt(c, w, es, k, p, id))
    && (id in failed <==> exists k | 0 <= k < |es| :: FailsAt(c, w, es, k, p, id))
  }

  lemma {:induction false} NobodyBefore(c: Config, w: World, es: seq<Event>, p: Pid)
    requires p !in Run(c, w, es).procs
    ensures p !in w.procs
  {
    if es != [] {
      var y := Run(c, w, es[..|es| - 1]);
      if p in y.procs { ProcessesStay(c, y, es[|es| - 1], p); }
      NobodyBefore(c, w, es[..|es| - 1], p);
    }
  }

  /** The batch goes on with its next asset. */
  function NextTurn(b: Proc, warn: bool): Proc
    requires b.Batch? && b.next < |b.todo|
  {
    b.(next := b.next + 1, at := Head, warnings := if warn then b.warnings + [b.todo[b.next].id] else b.warnings)
  }

  lemma SourceIsDeleted(c: Config, w: World, p: Pid, io: Io, warn: bool)
    requires BatchAt(w, p) && w.procs[p].at.Switched?
    requires warn <==> io != Ok && CurrentRow(w.procs[p]).loc.driver != Local
    ensures Step(c, w, DeleteSource(p, io))
         == Go(Erase(w, Cell(c, CurrentRow(w.procs[p])), io), p, NextTurn(w.procs[p], warn))
  {
  }

  predicate AllKnown(assets: seq<Item>) {
    forall i :: 0 <= i < |assets| ==> !assets[i].row.loc.driver.Unknown?
  }

  lemma KnownSoFar(assets: seq<Item>, i: nat)
    requires i < |assets| && AllKnown(assets[..i])
    ensures AllKnown(assets[..i + 1]) <==> !assets[i].row.loc.driver.Unknown?
    ensures assets[i].row.loc.driver.Unknown? ==> !AllKnown(assets)
  {
    assert assets[..i + 1][i] == assets[i];
    forall k | 0 <= k < i ensures assets[..i + 1][k] == assets[..i][k] {
    }
  }

  lemma DriversOf(w: World, chosen: seq<Id>)
    requires forall id :: id in chosen ==> id in w.rows
    ensures Ids(Snapshot(w, chosen)) == chosen
    ensures AllKnown(Snapshot(w, chosen)) <==> !exists id :: id in chosen && w.rows[id].loc.driver == Unknown
  {
    forall i | 0 <= i < |chosen| ensures Snapshot(w, chosen)[i].row == w.rows[chosen[i]] {
      assert chosen[i] in chosen;
    }
  }

  /** `e` deletes the source of a migrated row; an error becomes a warning when the source is on S3. */
  predicate EndsTurn(e: Event, p: Pid, row: Row, warn: bool) {
    e.DeleteSource? && e.p == p && (warn <==> e.io != Ok && row.loc.driver == S3)
  }

  /** `e` is a read of the row's source that found `data` there and accepted it. */
  predicate WasRead(w: World, e: Event, c: Config, row: Row, data: Bytes) {
    && e.ReadSource? && e.io.Ok?
    && Cell(c, row) in w.objects && w.objects[Cell(c, row)] == data && Accepted(c, data, row)
  }

  /**
    The service. `frames` holds the suspended code of every process, `log` everything that happened
    since `start`. At each await of the running method, other processes take any number of steps.
  */
  class AssetsService {
    const c: Config
    var rows: map<Id, Row>
    var objects: map<(Place, Key), Bytes>
    var frames: map<Pid, Proc>
    var original: map<Id, Bytes>
    var clock: nat
    ghost var start: World
    ghost var log: seq<Event>

    ghost function View(): World
      reads this
    {
      World(rows, objects, frames, original)
    }

    /** The service's history is a run of the protocol. */
    ghost predicate Valid()
      reads this
    {
      View() == Run(c, start, log)
    }

    constructor (c: Config, w: World)
      ensures Valid() && this.c == c && start == w && log == []
    {
      this.c := c;
      rows, objects, frames, original, clock := w.rows, w.objects, w.procs, w.original, 0;
      start, log := w, [];
    }

    ghost method Record(e: Event)
      requires View() == Step(c, Run(c, start, log), e)
      modifies this`log
      ensures Valid() && log == old(log) + [e]
    {
      ghost var now := View();
      Recorded(c, start, log, e, now);
      log := log + [e];
      assert View() == now;
    }

    method Await(p: Pid, env: Env)
      requires Valid() && p in frames && Elsewhere(env, p)
      modifies this
      ensures old(log) <= log
      ensures Valid() && start == old(start) && clock == old(clock) + 1
      ensures p in frames && frames[p] == old(frames[p])
    {
      var es := env.others(clock);
      clock := clock + 1;
      for i := 0 to |es|
        invariant Valid() && start == old(start) && clock == old(clock) + 1 && old(log) <= log
        invariant p in frames && frames[p] == old(frames[p])
      {
        var w := Step(c, World(rows, objects, frames, original), es[i]);
        OthersLeaveFrame(c, View(), es[i], p);
        rows, objects, frames, original := w.rows, w.objects, w.procs, w.original;
        Record(es[i]);
      }
    }

    /** Leaves the try block of the current asset through its catch. */
    method Catch(p: Pid)
      requires BatchAt(View(), p)
      modifies this`frames
      ensures frames == old(frames)[p := FailItem(old(frames)[p])]
    {
      frames := frames[p := FailItem(frames[p])];
    }

    method ReadSource(p: Pid, io: Io) returns (data: Option<Bytes>)
      requires Valid() && BatchAt(View(), p) && frames[p].at.Head?
      requires !frames[p].todo[frames[p].next].row.loc.driver.Unknown?
      modifies this
      ensures log == old(log) + [Event.ReadSource(p, io)]
      ensures Valid() && start == old(start) && clock == old(clock) && p in frames
      ensures frames[p] == if data.Some? then old(frames[p]).(at := Loaded(data.value)) else FailItem(old(frames[p]))
      ensures data.Some? ==> WasRead(old(View()), Event.ReadSource(p, io), c, CurrentRow(old(frames[p])), data.value)
    {
      var row := frames[p].todo[frames[p].next].row;
      data := None;
      if io == Ok && Cell(c, row) in objects {
        var found := objects[Cell(c, row)];
        if |found| <= c.maxReadBytes && |found| == row.size && (row.checksum.None? || row.checksum.value == Sha256(found)) {
          data := Some(found);
        }
      }
      if data.Some? {
        frames := frames[p := frames[p].(at := Loaded(data.value))];
      } else {
        Catch(p);
      }
      Record(Event.ReadSource(p, io));
    }

    /** Reads the target; `there` is None when the object is missing, else whether it is the same. */
    method ReadTarget(p: Pid, io: Io) returns (there: Option<bool>)
      requires Valid() && BatchAt(View(), p) && frames[p].at.Loaded?
      modifies this
      ensures log == old(log) + [Event.ReadTarget(p, io)]
      ensures Valid() && start == old(start) && clock == old(clock) && p in frames
      ensures var data := old(frames[p].at.data);
              frames[p] == match there
                           case None => old(frames[p]).(at := Absent(data))
                           case Some(same) => if same then old(frames[p]).(at := Stored(data)) else FailItem(old(frames[p]))
    {
      var b := frames[p];
      var cell := TargetCell(c, b.todo[b.next].row);
      if io == Ok && cell !in objects {
        there := None;
        frames := frames[p := b.(at := Absent(b.at.data))];
      } else {
        var same := io == Ok && |objects[cell]| <= c.maxReadBytes && |objects[cell]| == |b.at.data|
                    && Sha256(objects[cell]) == Sha256(b.at.data);
        there := Some(same);
        if same {
          frames := frames[p := b.(at := Stored(b.at.data))];
        } else {
          Catch(p);
        }
      }
      Record(Event.ReadTarget(p, io));
    }

    /** `putBytesAt`, with a pause after every piece that reaches the local disk. */
    method PutBytesAt(p: Pid, env: Env) returns (ok: bool)
      requires Valid() && BatchAt(View(), p) && frames[p].at.Absent? && Elsewhere(env, p)
      modifies this
      ensures old(log) <= log
      ensures Valid() && start == old(start) && p in frames
      ensures frames[p] == if ok then old(frames[p]).(at := Stored(old(frames[p].at.data))) else FailItem(old(frames[p]))
    {
      var b := frames[p];
      var data := b.at.data;
      ok := BeginPut(p, env.io(clock));
      if !ok || !c.local { return; }
      var written := 0;
      while written < |data|
        invariant Valid() && start == old(start) && p in frames && old(log) <= log
        invariant ok && written <= |data|
        invariant frames[p] == b.(at := if written == |data| then Stored(data) else Writing(data, written))
      {
        Await(p, env);
        var upTo := written + 1 + if env.chunk(clock) < |data| - written - 1 then env.chunk(clock) else |data| - written - 1;
        ok := WritePiece(p, upTo, env.io(clock));
        if !ok { return; }
        written := upTo;
      }
    }

    method BeginPut(p: Pid, io: Io) returns (ok: bool)
      requires Valid() && BatchAt(View(), p) && frames[p].at.Absent?
      modifies this
      ensures log == old(log) + [Event.Put(p, io)]
      ensures Valid() && start == old(start) && clock == old(clock) && p in frames
      ensures var data := old(frames[p].at.data);
              && frames[p] == (if ok then old(frames[p]).(at := if c.local then Writing(data, 0) else Stored(data))
                               else FailItem(old(frames[p])))
              && (ok ==> |data| > 0)
    {
      var b := frames[p];
      var data := b.at.data;
      var cell := TargetCell(c, b.todo[b.next].row);
      ok := 0 < |data| <= c.maxBytes && io != Refused && !(c.local && cell in objects);
      if ok {
        objects := objects[cell := if c.local then [] else data];
        ok := io == Ok;
      }
      if ok {
        frames := frames[p := b.(at := if c.local then Writing(data, 0) else Stored(data))];
      } else {
        Catch(p);
      }
      Record(Event.Put(p, io));
    }

    method WritePiece(p: Pid, upTo: nat, io: Io) returns (ok: bool)
      requires Valid() && BatchAt(View(), p) && frames[p].at.Writing?
      requires frames[p].at.written <= upTo <= |frames[p].at.data|
      modifies this
      ensures log == old(log) + [Event.WriteMore(p, upTo, io)]
      ensures Valid() && start == old(start) && clock == old(clock) && p in frames
      ensures var data := old(frames[p].at.data);
              frames[p] == if ok then old(frames[p]).(at := if upTo == |data| then Stored(data) else Writing(data, upTo))
                           else FailItem(old(frames[p]))
    {
      var b := frames[p];
      var cell := TargetCell(c, b.todo[b.next].row);
      if cell in objects {
        objects := objects[cell := b.at.data[..upTo]];
      }
      ok := io == Ok;
      if ok {
        frames := frames[p := b.(at := if upTo == |b.at.data| then Stored(b.at.data) else Writing(b.at.data, upTo))];
      } else {
        Catch(p);
      }
      Record(Event.WriteMore(p, upTo, io));
    }

    /** `updateMany` where driver and bucket are still those that were read. */
    method UpdateLocation(p: Pid, io: Io) returns (ok: bool)
      requires Valid() && BatchAt(View(), p) && frames[p].at.Stored?
      modifies this
      ensures log == old(log) + [Event.Switch(p, io)]
      ensures Valid() && start == old(start) && clock == old(clock) && p in frames
      ensures var b := old(frames[p]);
              frames[p] == if ok then b.(migrated := b.migrated + [b.todo[b.next].id], at := Switched) else FailItem(b)
    {
      var b := frames[p];
      var it := b.todo[b.next];
      ok := io != Refused && it.id in rows && rows[it.id].loc == it.row.loc;
      if ok {
        rows := rows[it.id := rows[it.id].(loc := Target(c), checksum := Some(Sha256(b.at.data)))];
        ok := io == Ok;
      }
      if ok {
        frames := frames[p := b.(migrated := b.migrated + [it.id], at := Switched)];
      } else {
        Catch(p);
      }
      Record(Event.Switch(p, io));
    }

    method EraseObject(cell: (Place, Key), io: Io)
      modifies this`objects
      ensures View() == Erase(old(View()), cell, io)
    {
      if io != Refused {
        objects := objects - {cell};
      }
    }

    method DeleteSource(p: Pid, io: Io) returns (warn: bool)
      requires Valid() && BatchAt(View(), p) && frames[p].at.Switched?
      requires !CurrentRow(frames[p]).loc.driver.Unknown?
      modifies this
      ensures warn <==> io != Ok && CurrentRow(old(frames[p])).loc.driver == S3
      ensures log == old(log) + [Event.DeleteSource(p, io)]
      ensures Valid() && start == old(start) && clock == old(clock) && p in frames
      ensures frames[p] == NextTurn(old(frames[p]), warn)
    {
      var b := frames[p];
      warn := io != Ok && CurrentRow(b).loc.driver != Local;
      ghost var before := View();
      SourceIsDeleted(c, before, p, io, warn);
      EraseObject(Cell(c, CurrentRow(b)), io);
      frames := frames[p := NextTurn(b, warn)];
      assert View() == Go(Erase(before, Cell(c, CurrentRow(b)), io), p, NextTurn(b, warn));
      Record(Event.DeleteSource(p, io));
    }

    /** The try block up to the point where the target is known to hold the bytes. */
    method CopyVerified(p: Pid, env: Env) returns (ok: bool)
      requires Valid() && BatchAt(View(), p) && frames[p].at.Head? && Elsewhere(env, p)
      requires !frames[p].todo[frames[p].next].row.loc.driver.Unknown?
      modifies this
      ensures old(log) <= log
      ensures Valid() && start == old(start) && p in frames
      ensures ok ==> frames[p].Batch? && frames[p].at.Stored? && frames[p] == old(frames[p]).(at := frames[p].at)
      ensures ok ==> exists k :: |old(log)| <= k < |log| && log[k].p == p &&
                                 WasRead(Run(c, start, log[..k]), log[k], c, CurrentRow(old(frames[p])), frames[p].at.data)
      ensures !ok ==> frames[p] == FailItem(old(frames[p]))
    {
      Await(p, env);
      ghost var k := |log|;
      ghost var before := log;
      var data := ReadSource(p, env.io(clock));
      if data.None? { return false; }
      ghost var between := log;
      ok := CompareOrPut(p, env);
      assert log[..k] == before && log[k] == between[k];
    }

    /** The source has been read and checked: the target may hold the same bytes already, or gets them now. */
    method CompareOrPut(p: Pid, env: Env) returns (ok: bool)
      requires Valid() && BatchAt(View(), p) && frames[p].at.Loaded? && Elsewhere(env, p)
      modifies this
      ensures old(log) <= log
      ensures Valid() && start == old(start) && p in frames
      ensures frames[p] == if ok then old(frames[p]).(at := Stored(old(frames[p].at.data))) else FailItem(old(frames[p]))
    {
      Await(p, env);
      var there := ReadTarget(p, env.io(clock));
      if there.Some? { return there.value; }
      Await(p, env);
      ok := PutBytesAt(p, env);
    }

    /** The body of the loop for an asset with a known driver. */
    method MigrateOne(p: Pid, env: Env) returns (ok: bool, warn: bool)
      requires Valid() && BatchAt(View(), p) && frames[p].at.Head? && Elsewhere(env, p)
      requires !frames[p].todo[frames[p].next].row.loc.driver.Unknown?
      modifies this
      ensures old(log) <= log
      ensures Valid() && start == old(start) && p in frames
      ensures var b := old(frames[p]);
              var id := b.todo[b.next].id;
              frames[p] == b.(next := b.next + 1,
                              migrated := if ok then b.migrated + [id] else b.migrated,
                              failed := if ok then b.failed else b.failed + [id],
                              warnings := if warn then b.warnings + [id] else b.warnings)
      ensures !ok ==> !warn
      ensures ok ==> log != [] && EndsTurn(log[|log| - 1], p, CurrentRow(old(frames[p])), warn)
    {
      warn := false;
      ok := CopyVerified(p, env);
      if !ok { return; }
      Await(p, env);
      ok := UpdateLocation(p, env.io(clock));
      if !ok { return; }
      Await(p, env);
      warn := DeleteSource(p, env.io(clock));
    }

    /** Assets whose driver is neither local nor S3 make `assetLocation` throw outside the try block. */
    method Abort(p: Pid, env: Env)
      requires Valid() && BatchAt(View(), p) && frames[p].at.Head? && Elsewhere(env, p)
      requires frames[p].todo[frames[p].next].row.loc.driver.Unknown?
      modifies this
      ensures old(log) <= log
      ensures Valid() && start == old(start) && p in frames && frames[p] == Stopped
    {
      Await(p, env);
      frames := frames[p := Stopped];
      Record(Event.ReadSource(p, Ok));
    }

    method Select(p: Pid, chosen: seq<Id>) returns (assets: seq<Item>)
      requires Valid() && p !in frames && Selectable(c, View(), chosen)
      modifies this
      ensures log == old(log) + [StartBatch(p, chosen)]
      ensures Valid() && start == old(start) && p in frames
      ensures assets == Snapshot(old(View()), chosen) && frames[p] == Batch(assets, 0, Head, [], [], [])
    {
      assets := Snapshot(World(rows, objects, frames, original), chosen);
      frames := frames[p := Batch(assets, 0, Head, [], [], [])];
      Record(StartBatch(p, chosen));
    }

    method Answer(p: Pid)
      requires Valid() && p in frames && frames[p].Batch? && frames[p].at.Head? && frames[p].next == |frames[p].todo|
      modifies this
      ensures log == old(log) + [Event.Report(p)]
      ensures Valid() && start == old(start) && p in frames && frames[p] == old(frames[p]).(at := Reported)
    {
      frames := frames[p := frames[p].(at := Reported)];
      Record(Report(p));
    }

    /**
      `migrateToActive` on the assets its query returned, with everybody else's steps in between. An
      unknown driver ends it with an exception; otherwise the report accounts for every asset.
    */
    method MigrateToActive(p: Pid, chosen: seq<Id>, env: Env)
      returns (aborted: bool, migrated: seq<Id>, failed: seq<Id>, warnings: seq<Id>)
      requires Valid() && p !in frames && Selectable(c, View(), chosen) && Elsewhere(env, p)
      modifies this
      ensures old(log) <= log
      ensures Valid() && start == old(start) && p in frames
      ensures aborted ==> frames[p] == Stopped
      ensures aborted <==> exists id :: id in chosen && old(rows)[id].loc.driver == Unknown
      ensures !aborted ==> frames[p] == Batch(Snapshot(old(View()), chosen), |chosen|, Reported, migrated, failed, warnings)
      ensures !aborted ==> multiset(migrated + failed) == multiset(chosen) && NoDuplicates(migrated + failed)
      ensures forall id :: id in warnings ==> id in migrated
      ensures !aborted ==> forall id :: ListsExplained(c, start, log, p, id, migrated, failed, warnings)
    {
      NobodyBefore(c, start, log, p);
      DriversOf(View(), chosen);
      var assets := Select(p, chosen);
      aborted, migrated, failed, warnings := MigrateEach(p, chosen, assets, env);
      if aborted { return; }
      AllListed(migrated, failed, chosen);
      Answer(p);
      forall id ensures ListsExplained(c, start, log, p, id, migrated, failed, warnings) {
        ListsAreExact(c, start, log, p, id);
      }
    }

    /** The loop over the selected assets. */
    method MigrateEach(p: Pid, chosen: seq<Id>, assets: seq<Item>, env: Env)
      returns (aborted: bool, migrated: seq<Id>, failed: seq<Id>, warnings: seq<Id>)
      requires Valid() && p in frames && Elsewhere(env, p)
      requires frames[p] == Batch(assets, 0, Head, [], [], []) && Ids(assets) == chosen
      modifies this
      ensures old(log) <= log
      ensures Valid() && start == old(start) && p in frames
      ensures aborted <==> !AllKnown(assets)
      ensures frames[p] == if aborted then Stopped else Batch(assets, |assets|, Head, migrated, failed, warnings)
      ensures !aborted ==> Listed(migrated, failed, chosen[..|chosen|])
      ensures forall id :: id in warnings ==> id in migrated
    {
      aborted, migrated, failed, warnings := false, [], [], [];
      for i := 0 to |assets|
        invariant Valid() && start == old(start) && p in frames && old(log) <= log
        invariant frames[p] == Batch(assets, i, Head, migrated, failed, warnings)
        invariant Listed(migrated, failed, chosen[..i])
        invariant forall id :: id in warnings ==> id in migrated
        invariant AllKnown(assets[..i])
      {
        var id := assets[i].id;
        KnownSoFar(assets, i);
        if assets[i].row.loc.driver.Unknown? {
          Abort(p, env);
          aborted := true;
          return;
        }
        ListedMore(migrated, failed, chosen, i);
        var ok, warn := MigrateOne(p, env);
        if ok {
          migrated := migrated + [id];
        } else {
          failed := failed + [id];
        }
        if warn {
          warnings := warnings + [id];
        }
      }
      assert assets[..|assets|] == assets;
    }

    /** `remove` and `removeAsAdmin`: the row is marked first, then the object is deleted where the row said it was. */
    method Remove(p: Pid, id: Id, env: Env) returns (found: bool)
      requires Valid() && p !in frames && Elsewhere(env, p)
      modifies this
      ensures old(log) <= log
      ensures Valid() && start == old(start)
      ensures found <==> old(id in rows && !rows[id].deleted)
    {
      found := id in rows && !rows[id].deleted;
      if !found { return; }
      frames := frames[p := Removing(Item(id, rows[id]), false)];
      Record(StartRemove(p, id));
      Await(p, env);
      var marked := MarkRow(p, env.io(clock));
      if marked {
        Await(p, env);
        DeleteMarked(p, env.io(clock));
      }
    }

    method MarkRow(p: Pid, io: Io) returns (ok: bool)
      requires Valid() && p in frames && frames[p].Removing? && !frames[p].marked
      modifies this
      ensures log == old(log) + [MarkDeleted(p, io)]
      ensures Valid() && start == old(start) && p in frames
      ensures frames[p] == if ok then old(frames[p]).(marked := true) else Stopped
      ensures var id := old(frames[p]).item.id;
              && (ok <==> io == Ok && id in old(rows))
              && rows == (if io == Refused || id !in old(rows) then old(rows) else old(rows)[id := old(rows)[id].(deleted := true)])
    {
      var id := frames[p].item.id;
      ok := io != Refused && id in rows;
      if ok {
        rows := rows[id := rows[id].(deleted := true)];
        ok := io == Ok;
      }
      frames := frames[p := if ok then frames[p].(marked := true) else Stopped];
      Record(MarkDeleted(p, io));
    }

    method DeleteMarked(p: Pid, io: Io)
      requires Valid() && p in frames && frames[p].Removing? && frames[p].marked
      modifies this
      ensures log == old(log) + [DeleteRemoved(p, io)]
      ensures Valid() && start == old(start) && p in frames && frames[p] == Stopped
      ensures objects == if io == Refused then old(objects) else old(objects) - {Cell(c, old(frames[p]).item.row)}
    {
      EraseObject(Cell(c, frames[p].item.row), io);
      frames := frames[p := Stopped];
      Record(DeleteRemoved(p, io));
    }

    /** `e` deletes the object of this key, which is gone unless the request was refused. */
    ghost predicate TriedToDelete(p: Pid, key: Key, e: Event)
      reads this
    {
      e.CleanUp? && e.p == p && (!e.io.Refused? ==> (Physical(c, Target(c)), key) !in objects)
    }

    ghost predicate OnlyWrote(p: Pid, e: Event) {
      e.PutNew? && e.p == p
    }

    /**
      `storeUpload` and `storeGenerated`: the object is written before its row; whatever goes wrong
      from the first write on (for a generated file, after it) deletes the object again.
    */
    method Store(p: Pid, key: Key, data: Bytes, generated: bool, id: Id, env: Env) returns (stored: bool)
      requires Valid() && p !in frames && FreshKey(View(), key) && Elsewhere(env, p)
      modifies this
      ensures old(log) <= log
      ensures Valid() && start == old(start)
      ensures p in frames && frames[p] == Stopped
      ensures stored ==> 0 < |data| <= c.maxBytes && id in rows
                         && rows[id] == Row(key, Target(c), |data|, Some(Sha256(data)), false)
      ensures log != [] && if stored then log[|log| - 1] == CreateRow(p, id, Ok)
                           else TriedToDelete(p, key, log[|log| - 1]) || (generated && OnlyWrote(p, log[|log| - 1]))
    {
      BeginStore(p, key, data, generated);
      Await(p, env);
      stored := WriteNew(p, env.io(clock));
      if stored {
        stored := Register(p, id, env);
      } else if !generated {
        Await(p, env);
        CleanUpNew(p, env.io(clock));
      }
    }

    method BeginStore(p: Pid, key: Key, data: Bytes, generated: bool)
      requires Valid() && p !in frames && FreshKey(View(), key)
      modifies this
      ensures log == old(log) + [StartStore(p, key, data, generated)]
      ensures Valid() && start == old(start) && p in frames && frames[p] == Storing(key, data, generated, Putting)
    {
      frames := frames[p := Storing(key, data, generated, Putting)];
      Record(StartStore(p, key, data, generated));
    }

    /** The object is there: its row is created, or the object deleted again. */
    method Register(p: Pid, id: Id, env: Env) returns (ok: bool)
      requires Valid() && p in frames && frames[p].Storing? && frames[p].step.Creating? && Elsewhere(env, p)
      modifies this
      ensures old(log) <= log
      ensures Valid() && start == old(start)
      ensures p in frames && frames[p] == Stopped
      ensures ok ==> id in rows && rows[id] == Row(old(frames[p]).key, Target(c), |old(frames[p]).data|,
                                                   Some(Sha256(old(frames[p]).data)), false)
      ensures log != [] && if ok then log[|log| - 1] == CreateRow(p, id, Ok)
                           else TriedToDelete(p, old(frames[p]).key, log[|log| - 1])
    {
      Await(p, env);
      ok := InsertRow(p, id, env.io(clock));
      if !ok {
        Await(p, env);
        CleanUpNew(p, env.io(clock));
      }
    }

    method WriteNew(p: Pid, io: Io) returns (ok: bool)
      requires Valid() && p in frames && frames[p].Storing? && frames[p].step.Putting?
      modifies this
      ensures log == old(log) + [PutNew(p, io)]
      ensures Valid() && start == old(start) && clock == old(clock) && p in frames
      ensures ok <==> io == Ok && 0 < |old(frames[p]).data| <= c.maxBytes
      ensures ok ==> objects == old(objects)[(Physical(c, Target(c)), old(frames[p]).key) := old(frames[p]).data]
      ensures frames[p] == if ok then old(frames[p]).(step := Creating)
                           else if old(frames[p]).generated then Stopped else old(frames[p]).(step := Cleaning)
    {
      var s := frames[p];
      ok := 0 < |s.data| <= c.maxBytes && io != Refused;
      if ok {
        objects := objects[(Physical(c, Target(c)), s.key) := s.data];
        ok := io == Ok;
      }
      frames := frames[p := if ok then s.(step := Creating) else if s.generated then Stopped else s.(step := Cleaning)];
      Record(PutNew(p, io));
    }

    /** `asset.create`: a row of the key, the target, the size and the checksum just written, reported or not. */
    method InsertRow(p: Pid, id: Id, io: Io) returns (ok: bool)
      requires Valid() && p in frames && frames[p].Storing? && frames[p].step.Creating?
      modifies this
      ensures log == old(log) + [CreateRow(p, id, io)]
      ensures Valid() && start == old(start) && clock == old(clock) && p in frames
      ensures ok <==> io == Ok && id !in old(rows)
      ensures frames[p] == if ok then Stopped else old(frames[p]).(step := Cleaning)
      ensures rows == if io == Refused || id in old(rows) then old(rows)
                      else old(rows)[id := Row(old(frames[p]).key, Target(c), |old(frames[p]).data|,
                                               Some(Sha256(old(frames[p]).data)), false)]
    {
      var s := frames[p];
      ok := io != Refused && id !in rows;
      if ok {
        rows := rows[id := Row(s.key, Target(c), |s.data|, Some(Sha256(s.data)), false)];
        original := original[id := s.data];
        ok := io == Ok;
      }
      frames := frames[p := if ok then Stopped else s.(step := Cleaning)];
      Record(CreateRow(p, id, io));
    }

    method CleanUpNew(p: Pid, io: Io)
      requires Valid() && p in frames && frames[p].Storing? && frames[p].step.Cleaning?
      modifies this
      ensures log == old(log) + [CleanUp(p, io)]
      ensures Valid() && start == old(start) && p in frames && frames[p] == Stopped
      ensures TriedToDelete(p, old(frames[p]).key, CleanUp(p, io))
    {
      EraseObject((Physical(c, Target(c)), frames[p].key), io);
      frames := frames[p := Stopped];
      Record(CleanUp(p, io));
    }

    /** Whatever has run so far, and whoever ran in between, a live asset is lost only with its insert. */
    ghost method NothingIsLost()
      requires Valid() && Start(c, start) && NoneDoomed(c, start)
      ensures forall id :: Live(View(), id) ==> (Finds(c, View(), id) <==> id !in RevokedIds(c, start, log))
    {
      NoInterleavingLosesBytes(c, start, log);
    }
  }
}

/**
 * Archiving one raw crawl onto two disks, and disposing of it later, as a transition system.
 *
 * Each disk has a live view, which processes see, and a saved view, which survives a power loss. A directory entry
 * is saved by syncing its directory, the bytes of a file by syncing the file; the kernel may also save entries on
 * its own at any time. A process exit loses the worker and rolls its transaction back; a power loss additionally
 * reduces every disk to its saved view and leaves arbitrary bytes in files that were not synced.
 */
module ArchiveModel {
  import opened Basics

  datatype Bytes = Bytes(id: nat)
  type Digest = nat
  type Inode = nat

  datatype Root = Nas | Backup

  /** Entries of the directory a batch is archived in. */
  datatype Entry = Final(hash: Digest) | Temporary(pid: nat)

  datatype Content = Content(bytes: Bytes, synced: bool)

  datatype Disk = Disk(
    inodes: map<Inode, Content>,
    nextInode: nat,
    live: map<Entry, Inode>,
    saved: map<Entry, Inode>,
    v1: bool, date: bool,             // the two directories above the copies, live
    savedV1: bool, savedDate: bool)   // and their own entries, saved

  /** What an archive receipt records; the bytes are history, the database keeps their digest. */
  datatype Receipt = Receipt(hash: Digest, bytes: Bytes)

  datatype Database = Database(
    source: Bytes,                    // the encoding of the batch's rows
    rows: bool,                       // the rows are still there
    receipt: Option<Receipt>,
    disposed: bool,
    filesDeleted: bool)

  datatype Pc =
    | MakeDirectories | Look | ResyncFile
    | OpenTemporary | WriteTemporary(ino: Inode) | SyncTemporary(ino: Inode) | ReadBack(ino: Inode) | Rename(ino: Inode)
    | SyncDate | SyncV1 | SyncRoot

  datatype Worker =
    | Idle
    | Copying(bytes: Bytes, pid: nat, root: Root, pc: Pc)
    | Verifying(bytes: Bytes, root: Root)
    | Publishing(bytes: Bytes)
    | Checking(hash: Digest, root: Root, found: seq<Root>)
    | Unlinking(hash: Digest, found: seq<Root>)
    | SyncingRemoval(hash: Digest, root: Root, found: seq<Root>)

  datatype World = World(db: Database, nas: Disk, backup: Disk, worker: Worker, damaged: set<Root>)

  function DiskOf(w: World, r: Root): Disk {
    if r.Nas? then w.nas else w.backup
  }

  function WithDisk(w: World, r: Root, d: Disk): World {
    if r.Nas? then w.(nas := d) else w.(backup := d)
  }

  // ----- what a process can do to a disk -----

  function ReadFile(d: Disk, e: Entry): Option<Bytes> {
    if e in d.live && d.live[e] in d.inodes then Some(d.inodes[d.live[e]].bytes) else None
  }

  function MadeDirectories(d: Disk): Disk {
    d.(v1 := true, date := true)
  }

  function Created(d: Disk, e: Entry): Disk {
    d.(inodes := d.inodes[d.nextInode := Content(Bytes(0), false)], live := d.live[e := d.nextInode], nextInode := d.nextInode + 1)
  }

  function Overwritten(d: Disk, ino: Inode, bytes: Bytes): Disk {
    d.(inodes := d.inodes[ino := Content(bytes, false)])
  }

  function SyncedFile(d: Disk, ino: Inode): Disk {
    if ino in d.inodes then d.(inodes := d.inodes[ino := d.inodes[ino].(synced := true)]) else d
  }

  function Renamed(d: Disk, from: Entry, to: Entry): Disk
    requires from in d.live
  {
    d.(live := (d.live - {from})[to := d.live[from]])
  }

  function Unlinked(d: Disk, e: Entry): Disk {
    d.(live := d.live - {e})
  }

  function SyncedDate(d: Disk): Disk { d.(saved := d.live) }
  function SyncedV1(d: Disk): Disk { d.(savedDate := d.date) }
  function SyncedRoot(d: Disk): Disk { d.(savedV1 := d.v1) }

  // ----- what happens to a disk by itself -----

  /** The kernel writes one entry of the copies' directory back. */
  function Flushed(d: Disk, e: Entry): Disk {
    d.(saved := if e in d.live then d.saved[e := d.live[e]] else d.saved - {e})
  }

  function AfterPowerLoss(d: Disk, torn: map<Inode, Bytes>): Disk {
    var tree := if d.savedV1 && d.savedDate then d.saved else map[];
    Disk(map i | i in d.inodes ::
           if d.inodes[i].synced then d.inodes[i]
           else Content(if i in torn then torn[i] else d.inodes[i].bytes, true),
         d.nextInode, tree, tree,
         d.savedV1, d.savedV1 && d.savedDate, d.savedV1, d.savedV1 && d.savedDate)
  }

  // ----- steps -----

  datatype Step =
    | BeginArchive(pid: nat)
    | BeginDispose
    | BeginDelete
    | Advance                                  // the worker's next operation, and what it finds
    | Fail(unlinked: bool)                     // it throws instead; a temporary file may or may not be cleaned up
    | ProcessExit
    | PowerLoss(torn: map<Inode, Bytes>)
    | Flush(root: Root, entry: Entry)
    | FlushDirectory(root: Root, isV1: bool)
    | Damage(root: Root, entry: Entry, bytes: Bytes)  // the medium corrupts a file
    | SourceChanges(bytes: Bytes)

  predicate Enabled(w: World, s: Step) {
    match s
    case BeginArchive(_) => w.worker.Idle? && w.db.rows && w.db.receipt.None? && !w.db.disposed
    case BeginDispose => w.worker.Idle? && !w.db.disposed
    case BeginDelete => w.worker.Idle? && w.db.disposed && w.db.receipt.Some? && !w.db.filesDeleted
    case Advance => !w.worker.Idle?
    case Fail(_) => !w.worker.Idle?
    case Damage(r, e, _) => e in DiskOf(w, r).live && DiskOf(w, r).live[e] in DiskOf(w, r).inodes
    case SourceChanges(_) => w.worker.Idle? && w.db.rows
    case _ => true
  }

  datatype CopyResult = Next(pc: Pc) | Written | Thrown

  /** The next operation of writing one copy to one disk. */
  function AdvanceCopy(d: Disk, pid: nat, hash: Digest, bytes: Bytes, pc: Pc): (Disk, CopyResult) {
    var final, temporary := Final(hash), Temporary(pid);
    match pc
    case MakeDirectories => (MadeDirectories(d), Next(Look))
    case Look =>
      var existing := ReadFile(d, final);
      if existing.None? then (d, Next(OpenTemporary))
      else if existing.value == bytes then (d, Next(ResyncFile))
      else (d, Thrown)
    case ResyncFile =>
      if final in d.live then (SyncedFile(d, d.live[final]), Next(SyncDate)) else (d, Thrown)
    case OpenTemporary =>
      // An exclusive create: a leftover of an earlier process with this id makes it fail, and is removed.
      if temporary in d.live then (Unlinked(d, temporary), Thrown)
      else (Created(d, temporary), Next(WriteTemporary(d.nextInode)))
    case WriteTemporary(ino) => (Overwritten(d, ino, bytes), Next(SyncTemporary(ino)))
    case SyncTemporary(ino) => (SyncedFile(d, ino), Next(ReadBack(ino)))
    case ReadBack(ino) =>
      if ReadFile(d, temporary) == Some(bytes) then (d, Next(Rename(ino))) else (Unlinked(d, temporary), Thrown)
    case Rename(ino) =>
      if temporary in d.live then (Renamed(d, temporary, final), Next(SyncDate)) else (d, Thrown)
    case SyncDate => (SyncedDate(d), Next(SyncV1))
    case SyncV1 => (SyncedV1(d), Next(SyncRoot))
    case SyncRoot => (SyncedRoot(d), Written)
  }

  function AdvanceCopying(w: World, digest: Bytes -> Digest): World
    requires w.worker.Copying?
  {
    var Copying(bytes, pid, r, pc) := w.worker;
    var (d, result) := AdvanceCopy(DiskOf(w, r), pid, digest(bytes), bytes, pc);
    WithDisk(w, r, d).(worker :=
      match result
      case Next(pc) => Copying(bytes, pid, r, pc)
      case Written => if r.Nas? then Copying(bytes, pid, Backup, MakeDirectories) else Verifying(bytes, Nas)
      case Thrown => Idle)
  }

  /** The next operation of deleting the copies of a disposed batch. */
  function AdvanceDeletion(w: World, digest: Bytes -> Digest): World
    requires w.worker.Checking? || w.worker.Unlinking? || w.worker.SyncingRemoval?
  {
    match w.worker
    case Checking(hash, r, found) =>
      var copy := ReadFile(DiskOf(w, r), Final(hash));
      if copy.Some? && digest(copy.value) != hash then w.(worker := Idle)
      else
        var now := if copy.Some? then found + [r] else found;
        w.(worker := if r.Nas? then Checking(hash, Backup, now) else Unlinking(hash, now))
    case Unlinking(hash, found) =>
      if found == [] then w.(db := w.db.(filesDeleted := true), worker := Idle)
      else WithDisk(w, found[0], Unlinked(DiskOf(w, found[0]), Final(hash))).(
             worker := SyncingRemoval(hash, found[0], found[1..]))
    case SyncingRemoval(hash, r, found) =>
      WithDisk(w, r, SyncedDate(DiskOf(w, r))).(worker := Unlinking(hash, found))
  }

  function AdvanceWorker(w: World, digest: Bytes -> Digest): World
    requires !w.worker.Idle?
  {
    match w.worker
    case Copying(_, _, _, _) => AdvanceCopying(w, digest)
    case Verifying(bytes, r) =>
      if ReadFile(DiskOf(w, r), Final(digest(bytes))) != Some(bytes) then w.(worker := Idle)
      else w.(worker := if r.Nas? then Verifying(bytes, Backup) else Publishing(bytes))
    case Publishing(bytes) =>
      // Receipt and deletion of the rows are one transaction.
      w.(db := w.db.(receipt := Some(Receipt(digest(bytes), bytes)), rows := false), worker := Idle)
    case Checking(_, _, _) => AdvanceDeletion(w, digest)
    case Unlinking(_, _) => AdvanceDeletion(w, digest)
    case SyncingRemoval(_, _, _) => AdvanceDeletion(w, digest)
  }

  function CleanedUp(w: World): World {
    if w.worker.Copying? && !w.worker.pc.MakeDirectories? && !w.worker.pc.Look? && !w.worker.pc.ResyncFile?
    then WithDisk(w, w.worker.root, Unlinked(DiskOf(w, w.worker.root), Temporary(w.worker.pid)))
    else w
  }

  function Apply(w: World, digest: Bytes -> Digest, s: Step): World
    requires Enabled(w, s)
  {
    match s
    case BeginArchive(pid) => w.(worker := Copying(w.db.source, pid, Nas, MakeDirectories))
    case BeginDispose => w.(db := w.db.(disposed := true, rows := false))
    case BeginDelete => w.(worker := Checking(w.db.receipt.value.hash, Nas, []))
    case Advance => AdvanceWorker(w, digest)
    case Fail(unlinked) => (if unlinked then CleanedUp(w) else w).(worker := Idle)
    case ProcessExit => w.(worker := Idle)
    case PowerLoss(torn) =>
      w.(nas := AfterPowerLoss(w.nas, torn), backup := AfterPowerLoss(w.backup, torn), worker := Idle)
    case Flush(r, e) => WithDisk(w, r, Flushed(DiskOf(w, r), e))
    case FlushDirectory(r, isV1) => WithDisk(w, r, if isV1 then SyncedRoot(DiskOf(w, r)) else SyncedV1(DiskOf(w, r)))
    case Damage(r, e, bytes) =>
      var d := DiskOf(w, r);
      WithDisk(w, r, d.(inodes := d.inodes[d.live[e] := Content(bytes, true)])).(damaged := w.damaged + {r})
    case SourceChanges(bytes) => w.(db := w.db.(source := bytes))
  }

  ghost predicate CanRun(w: World, digest: Bytes -> Digest, steps: seq<Step>)
    decreases |steps|
  {
    steps != [] ==> Enabled(w, steps[0]) && CanRun(Apply(w, digest, steps[0]), digest, steps[1..])
  }

  ghost function RunSteps(w: World, digest: Bytes -> Digest, steps: seq<Step>): World
    requires CanRun(w, digest, steps)
    decreases |steps|
  {
    if steps == [] then w else RunSteps(Apply(w, digest, steps[0]), digest, steps[1..])
  }

  const EMPTY_DISK := Disk(map[], 0, map[], map[], false, false, false, false)

  function InitialWorld(source: Bytes): World {
    World(Database(source, true, None, false, false), EMPTY_DISK, EMPTY_DISK, Idle, {})
  }
}

/**
 * The archive worker and the disposal worker in the program's own form, on a host with two disks and a database.
 * Each operation is one the transition system knows; here they follow one another without interruption.
 */
module ArchiveHost {
  import opened Basics
  import opened ArchiveModel
  import opened ArchiveDurability
  import opened ArchiveDisposal

  function Remaining(pc: Pc): nat {
    match pc
    case MakeDirectories => 10
    case Look => 9
    case OpenTemporary => 8
    case WriteTemporary(_) => 7
    case SyncTemporary(_) => 6
    case ReadBack(_) => 5
    case Rename(_) => 4
    case ResyncFile => 4
    case SyncDate => 3
    case SyncV1 => 2
    case SyncRoot => 1
  }

  /** One copy, operation after operation, until it is written or something throws. */
  function CopyRun(d: Disk, pid: nat, hash: Digest, bytes: Bytes, pc: Pc): (Disk, bool)
    decreases Remaining(pc)
  {
    var (next, result) := AdvanceCopy(d, pid, hash, bytes, pc);
    match result
    case Written => (next, true)
    case Thrown => (next, false)
    case Next(following) => CopyRun(next, pid, hash, bytes, following)
  }

  lemma {:induction false} CopyRunStores(d: Disk, pid: nat, hash: Digest, bytes: Bytes, pc: Pc)
    requires Sane(d) && Partial(d, true, pid, hash, bytes, pc)
    ensures Sane(CopyRun(d, pid, hash, bytes, pc).0)
    ensures CopyRun(d, pid, hash, bytes, pc).1 ==> Stored(CopyRun(d, pid, hash, bytes, pc).0, hash, bytes)
    decreases Remaining(pc)
  {
    CopyKeepsSane(d, true, pid, hash, bytes, pc);
    CopyAdvances(d, true, pid, hash, bytes, pc);
    var (next, result) := AdvanceCopy(d, pid, hash, bytes, pc);
    if result.Next? {
      assert Remaining(result.pc) < Remaining(pc);
      hide Sane, Partial, AdvanceCopy, Stored;
      CopyRunStores(next, pid, hash, bytes, result.pc);
    } else {
      hide Sane, Partial, Stored;
    }
  }

  lemma Unfold(d: Disk, pid: nat, hash: Digest, bytes: Bytes, pc: Pc)
    ensures var (next, result) := AdvanceCopy(d, pid, hash, bytes, pc);
      CopyRun(d, pid, hash, bytes, pc) ==
        match result
        case Written => (next, true)
        case Thrown => (next, false)
        case Next(following) => CopyRun(next, pid, hash, bytes, following)
  {}

  lemma SyncsRun(d: Disk, pid: nat, hash: Digest, bytes: Bytes)
    ensures CopyRun(d, pid, hash, bytes, SyncDate) == (SyncedRoot(SyncedV1(SyncedDate(d))), true)
  {
    hide CopyRun;
    Unfold(d, pid, hash, bytes, SyncDate);
    Unfold(SyncedDate(d), pid, hash, bytes, SyncV1);
    Unfold(SyncedV1(SyncedDate(d)), pid, hash, bytes, SyncRoot);
  }

  function Prepared(d: Disk, pid: nat, bytes: Bytes): Disk {
    SyncedFile(Overwritten(Created(d, Temporary(pid)), d.nextInode, bytes), d.nextInode)
  }

  lemma TemporaryRun(d: Disk, pid: nat, hash: Digest, bytes: Bytes)
    requires Temporary(pid) !in d.live
    ensures CopyRun(d, pid, hash, bytes, OpenTemporary) ==
      CopyRun(Prepared(d, pid, bytes), pid, hash, bytes, ReadBack(d.nextInode))
  {
    hide CopyRun;
    var a := Created(d, Temporary(pid));
    var b := Overwritten(a, d.nextInode, bytes);
    Unfold(d, pid, hash, bytes, OpenTemporary);
    Unfold(a, pid, hash, bytes, WriteTemporary(d.nextInode));
    Unfold(b, pid, hash, bytes, SyncTemporary(d.nextInode));
  }

  /** The disk lets a copy be published: the final name already reads the same bytes, or nothing can be read there, no
      earlier attempt of this process id left its temporary file, and the medium keeps what is written. */
  predicate CanHoldCopy(d: Disk, pid: nat, hash: Digest, bytes: Bytes, spoiled: Option<Bytes>) {
    var existing := ReadFile(d, Final(hash));
    if existing.Some? then existing.value == bytes
    else Temporary(pid) !in d.live && (spoiled.None? || spoiled.value == bytes)
  }

  /** The other files of the directory are as they were. */
  ghost predicate OthersUntouched(d: Disk, e: Disk, pid: nat, hash: Digest) {
    forall x :: x != Final(hash) && x != Temporary(pid) ==> ReadFile(e, x) == ReadFile(d, x)
  }

  /** What the medium has made of a copy since. */
  function Aged(d: Disk, hash: Digest, rotten: Option<Bytes>): Disk
    requires Final(hash) in d.live
  {
    if rotten.None? then d else d.(inodes := d.inodes[d.live[Final(hash)] := Content(rotten.value, true)])
  }

  lemma AgedReads(d: Disk, hash: Digest, bytes: Bytes, rotten: Option<Bytes>)
    requires Stored(d, hash, bytes)
    ensures ReadFile(Aged(d, hash, rotten), Final(hash)) == Some(if rotten.None? then bytes else rotten.value)
    ensures rotten.None? || rotten.value == bytes ==> Stored(Aged(d, hash, rotten), hash, bytes)
  {}

  class ArchiveDisk {
    var state: Disk

    constructor (d: Disk)
      ensures state == d
    {
      state := d;
    }

    method SyncParents()
      modifies this
      ensures state == SyncedRoot(SyncedV1(SyncedDate(old(state))))
    {
      state := SyncedDate(state);
      state := SyncedV1(state);
      state := SyncedRoot(state);
    }

    /** Publish one copy: reuse a matching one, refuse a different one, or write, check and rename a temporary file. It
        succeeds exactly when the disk can hold the copy, and then the whole path to the copy is synced; a failure
        leaves what is at the final name, and nothing else is touched. A new copy that fails leaves no temporary file. */
    method WriteArchiveCopy(pid: nat, hash: Digest, bytes: Bytes, spoiled: Option<Bytes>) returns (ok: bool)
      requires Sane(state)
      modifies this
      ensures ok ==> Stored(state, hash, bytes)
      ensures spoiled.None? ==> (state, ok) == CopyRun(old(state), pid, hash, bytes, MakeDirectories)
      ensures ok <==> CanHoldCopy(old(state), pid, hash, bytes, spoiled)
      ensures !ok ==> ReadFile(state, Final(hash)) == ReadFile(old(state), Final(hash))
      ensures ReadFile(old(state), Final(hash)).None? ==> Temporary(pid) !in state.live
      ensures OthersUntouched(old(state), state, pid, hash)
    {
      CopyRunStores(state, pid, hash, bytes, MakeDirectories);
      hide Sane, Stored, Partial, CopyRun, ReadFile, SyncedDate, SyncedV1, SyncedRoot;
      var final := Final(hash);
      Unfold(state, pid, hash, bytes, MakeDirectories);
      CopyKeepsSane(state, true, pid, hash, bytes, MakeDirectories) by {
        assert Partial(state, true, pid, hash, bytes, MakeDirectories) by { NothingDone(state, pid, hash, bytes); }
      }
      state := MadeDirectories(state);
      Unfold(state, pid, hash, bytes, Look);
      var existing := ReadFile(state, final);
      if existing.None? {
        ok := WriteNewCopy(pid, hash, bytes, spoiled);
        return;
      }
      if existing.value != bytes { return false; }
      Unfold(state, pid, hash, bytes, ResyncFile);
      ReadHasName(state, final);
      state := SyncedFile(state, state.live[final]);
      SyncsRun(state, pid, hash, bytes);
      SyncParents();
      ok := true;
    }

    /** Time passes over a stored copy. */
    method Age(hash: Digest, ghost bytes: Bytes, rotten: Option<Bytes>)
      requires Stored(state, hash, bytes)
      modifies this
      ensures state == Aged(old(state), hash, rotten)
    {
      state := Aged(state, hash, rotten);
    }

    method WriteNewCopy(pid: nat, hash: Digest, bytes: Bytes, spoiled: Option<Bytes>) returns (ok: bool)
      requires Sane(state) && state.v1 && state.date
      modifies this
      ensures ok ==> Stored(state, hash, bytes)
      ensures spoiled.None? ==> (state, ok) == CopyRun(old(state), pid, hash, bytes, OpenTemporary)
      ensures ok <==> Temporary(pid) !in old(state).live && (spoiled.None? || spoiled.value == bytes)
      ensures !ok ==> ReadFile(state, Final(hash)) == ReadFile(old(state), Final(hash))
      ensures Temporary(pid) !in state.live && OthersUntouched(old(state), state, pid, hash)
    {
      hide Sane, Stored, Partial, CopyRun, ReadFile, SyncedDate, SyncedV1, SyncedRoot;
      var final, temporary := Final(hash), Temporary(pid);
      if temporary in state.live {
        Unfold(state, pid, hash, bytes, OpenTemporary);
        forall x ensures x != temporary ==> ReadFile(Unlinked(state, temporary), x) == ReadFile(state, x) {
          UnlinkLeavesOthers(state, temporary, x);
        }
        state := Unlinked(state, temporary);
        return false;
      }
      ghost var before := state;
      TemporaryRun(state, pid, hash, bytes);
      var handle := state.nextInode;
      state := Created(state, temporary);
      state := Overwritten(state, handle, bytes);
      state := SyncedFile(state, handle);
      PreparedHolds(before, pid, hash, bytes);
      if spoiled.Some? && spoiled.value != bytes {
        state := Overwritten(state, handle, spoiled.value);
      }
      Unfold(state, pid, hash, bytes, ReadBack(handle));
      if ReadFile(state, temporary) != Some(bytes) {
        state := Unlinked(state, temporary);
        FailedCopy(before, pid, hash, bytes, spoiled.value, state);
        return false;
      }
      assert spoiled.None? || spoiled.value == bytes by { SpoiledIsSeen(before, pid, bytes, spoiled); }
      assert state == Prepared(before, pid, bytes);
      Unfold(state, pid, hash, bytes, Rename(handle));
      state := Renamed(state, temporary, final);
      SyncsRun(state, pid, hash, bytes);
      SyncParents();
      FinishedCopy(before, pid, hash, bytes, state);
      ok := true;
    }
  }

  lemma NothingDone(d: Disk, pid: nat, hash: Digest, bytes: Bytes)
    ensures Partial(d, true, pid, hash, bytes, MakeDirectories)
  {}

  lemma PreparedHolds(d: Disk, pid: nat, hash: Digest, bytes: Bytes)
    requires Sane(d) && d.v1 && d.date && Temporary(pid) !in d.live
    ensures ReadFile(Prepared(d, pid, bytes), Temporary(pid)) == Some(bytes)
    ensures var done := SyncedRoot(SyncedV1(SyncedDate(Renamed(Prepared(d, pid, bytes), Temporary(pid), Final(hash)))));
      Stored(done, hash, bytes)
  {}

  /** Writing a new file, and removing it again, changes what no other name reads. */
  lemma NewFileLeavesOthers(d: Disk, pid: nat, bytes: Bytes, other: Bytes, x: Entry)
    requires Sane(d) && Temporary(pid) !in d.live && x != Temporary(pid)
    ensures ReadFile(Prepared(d, pid, bytes), x) == ReadFile(d, x)
    ensures ReadFile(Overwritten(Prepared(d, pid, bytes), d.nextInode, other), x) == ReadFile(d, x)
  {}

  lemma UnlinkLeavesOthers(d: Disk, e: Entry, x: Entry)
    ensures e !in Unlinked(d, e).live && (x != e ==> ReadFile(Unlinked(d, e), x) == ReadFile(d, x))
  {}

  lemma RenameLeavesOthers(d: Disk, from: Entry, to: Entry, x: Entry)
    requires from in d.live && from != to
    ensures from !in Renamed(d, from, to).live && (x != from && x != to ==> ReadFile(Renamed(d, from, to), x) == ReadFile(d, x))
  {}

  lemma SyncsLeaveNames(d: Disk, x: Entry)
    ensures var e := SyncedRoot(SyncedV1(SyncedDate(d))); e.live == d.live && ReadFile(e, x) == ReadFile(d, x)
  {}

  /** The temporary file was written and removed again. */
  lemma FailedCopy(d: Disk, pid: nat, hash: Digest, bytes: Bytes, other: Bytes, e: Disk)
    requires Sane(d) && Temporary(pid) !in d.live
    requires e == Unlinked(Overwritten(Prepared(d, pid, bytes), d.nextInode, other), Temporary(pid))
    ensures Temporary(pid) !in e.live && OthersUntouched(d, e, pid, hash)
    ensures ReadFile(e, Final(hash)) == ReadFile(d, Final(hash))
  {
    var mid := Overwritten(Prepared(d, pid, bytes), d.nextInode, other);
    hide ReadFile, Unlinked, Prepared, Overwritten, Sane;
    forall x | x != Temporary(pid) ensures ReadFile(e, x) == ReadFile(d, x) {
      NewFileLeavesOthers(d, pid, bytes, other, x);
      UnlinkLeavesOthers(mid, Temporary(pid), x);
    }
    UnlinkLeavesOthers(mid, Temporary(pid), Final(hash));
  }

  /** The temporary file was renamed. */
  lemma FinishedCopy(d: Disk, pid: nat, hash: Digest, bytes: Bytes, e: Disk)
    requires Sane(d) && Temporary(pid) !in d.live && Temporary(pid) in Prepared(d, pid, bytes).live
    requires e == SyncedRoot(SyncedV1(SyncedDate(Renamed(Prepared(d, pid, bytes), Temporary(pid), Final(hash)))))
    ensures Temporary(pid) !in e.live && OthersUntouched(d, e, pid, hash)
  {
    var mid := Prepared(d, pid, bytes);
    var renamed := Renamed(mid, Temporary(pid), Final(hash));
    hide ReadFile, Renamed, Prepared, Sane, SyncedDate, SyncedV1, SyncedRoot;
    forall x | x != Final(hash) && x != Temporary(pid) ensures ReadFile(e, x) == ReadFile(d, x) {
      NewFileLeavesOthers(d, pid, bytes, bytes, x);
      RenameLeavesOthers(mid, Temporary(pid), Final(hash), x);
      SyncsLeaveNames(renamed, x);
    }
    RenameLeavesOthers(mid, Temporary(pid), Final(hash), Final(hash));
    SyncsLeaveNames(renamed, Final(hash));
  }

  lemma ReadHasName(d: Disk, x: Entry)
    requires ReadFile(d, x).Some?
    ensures x in d.live
  {}

  lemma SpoiledIsSeen(d: Disk, pid: nat, bytes: Bytes, spoiled: Option<Bytes>)
    requires Temporary(pid) !in d.live
    ensures spoiled.Some? && spoiled.value != bytes ==>
      ReadFile(Overwritten(Prepared(d, pid, bytes), d.nextInode, spoiled.value), Temporary(pid)) != Some(bytes)
  {}

  /** The copy is gone, and no other file. */
  ghost predicate OnlyCopyGone(d: Disk, e: Disk, name: Entry) {
    name !in e.live && forall x :: x != name ==> ReadFile(e, x) == ReadFile(d, x)
  }

  lemma RemovedOnlyCopy(d: Disk, hash: Digest)
    ensures Sane(d) ==> OnlyCopyGone(d, Removed(d, hash), Final(hash))
  {}

  class RetentionHost {
    const nas: ArchiveDisk
    const backup: ArchiveDisk
    const digest: Bytes -> Digest
    var db: Database

    constructor (a: ArchiveDisk, b: ArchiveDisk, digest: Bytes -> Digest, database: Database)
      ensures nas == a && backup == b && this.digest == digest && db == database
    {
      nas, backup, db := a, b, database;
      this.digest := digest;
    }

    ghost function State(): World
      reads this, nas, backup
    {
      World(db, nas.state, backup.state, Worker.Idle, {})
    }

    /** The rows leave the database in the transaction that publishes the receipt, and only after both copies were
        written, synced with the path to them, and read again. Otherwise the database is as it was. A batch is archived
        exactly when both disks can hold its copy and still have it when they are read again. */
    method ArchiveOneCrawl(pid: nat, spoiled: Root -> Option<Bytes>, rotten: Root -> Option<Bytes>) returns (ok: bool)
      requires nas != backup && Sane(nas.state) && Sane(backup.state)
      requires db.rows && db.receipt.None?
      modifies this, nas, backup
      ensures !ok ==> db == old(db)
      ensures ok ==> db == old(db).(receipt := Some(Receipt(digest(old(db.source)), old(db.source))), rows := false)
      ensures ok ==> Stored(nas.state, digest(db.source), db.source) && Stored(backup.state, digest(db.source), db.source)
      ensures ok <==> && CanHoldCopy(old(nas.state), pid, digest(old(db.source)), old(db.source), spoiled(Nas))
                      && CanHoldCopy(old(backup.state), pid, digest(old(db.source)), old(db.source), spoiled(Backup))
                      && (rotten(Nas).None? || rotten(Nas).value == old(db.source))
                      && (rotten(Backup).None? || rotten(Backup).value == old(db.source))
    {
      hide *;
      var bytes := db.source;
      var hash := digest(bytes);
      ok := nas.WriteArchiveCopy(pid, hash, bytes, spoiled(Nas));
      if !ok { return; }
      ok := backup.WriteArchiveCopy(pid, hash, bytes, spoiled(Backup));
      if !ok { return; }
      AgedReads(nas.state, hash, bytes, rotten(Nas));
      AgedReads(backup.state, hash, bytes, rotten(Backup));
      nas.Age(hash, bytes, rotten(Nas));
      backup.Age(hash, bytes, rotten(Backup));
      if ReadFile(nas.state, Final(hash)) != Some(bytes) || ReadFile(backup.state, Final(hash)) != Some(bytes) {
        return false;
      }
      db := db.(receipt := Some(Receipt(hash, bytes)), rows := false);
    }

    /** Delete the copies of a disposed batch: check both before touching either. Returns how many files it removed, or
        nothing when it threw. */
    method DeleteDisposedArchiveFiles() returns (removed: Option<nat>)
      requires nas != backup
      modifies this, nas, backup
      ensures !(old(db).disposed && old(db).receipt.Some?) || old(db).filesDeleted ==>
                State() == old(State()) && removed == if old(db).disposed then Some(0) else None
      ensures old(db).disposed && old(db).receipt.Some? && !old(db).filesDeleted ==>
                State() == AfterDeletion(old(State()), old(db).receipt.value.hash, digest)
      ensures old(db).receipt.Some? && !old(db).filesDeleted && removed.Some? ==>
                var name := Final(old(db).receipt.value.hash);
                && db == old(db).(filesDeleted := true)
                && (Sane(old(nas.state)) ==> OnlyCopyGone(old(nas.state), nas.state, name))
                && (Sane(old(backup.state)) ==> OnlyCopyGone(old(backup.state), backup.state, name))
      ensures removed.None? ==> State() == old(State())
      ensures removed.None? <==>
                !old(db).disposed
                || (old(db).receipt.Some? && !old(db).filesDeleted
                    && !Matching(old(State()), old(db).receipt.value.hash, digest))
      ensures old(db).receipt.Some? && !old(db).filesDeleted && removed.Some? ==>
                var name := Final(old(db).receipt.value.hash);
                removed.value == (if ReadFile(old(nas.state), name).Some? then 1 else 0)
                                 + (if ReadFile(old(backup.state), name).Some? then 1 else 0)
    {
      if db.receipt.Some? {
        RemovedOnlyCopy(nas.state, db.receipt.value.hash);
        RemovedOnlyCopy(backup.state, db.receipt.value.hash);
      }
      hide Sane, OnlyCopyGone;
      if !db.disposed { return None; }
      if db.receipt.None? || db.filesDeleted { return Some(0); }
      var hash := db.receipt.value.hash;
      var files: seq<ArchiveDisk> := [];
      var copy := ReadFile(nas.state, Final(hash));
      if copy.Some? {
        if digest(copy.value) != hash { return None; }
        files := files + [nas];
      }
      copy := ReadFile(backup.state, Final(hash));
      if copy.Some? {
        if digest(copy.value) != hash { return None; }
        files := files + [backup];
      }
      var k := 0;
      ghost var before := old(State());
      while k < |files|
        invariant k <= |files|
        invariant nas.state == (if nas in files[..k] then Removed(before.nas, hash) else before.nas)
        invariant backup.state == (if backup in files[..k] then Removed(before.backup, hash) else before.backup)
        invariant db == before.db
      {
        hide ReadFile;
        var disk := files[k];
        assert files[..k+1] == files[..k] + [disk];
        assert disk !in files[..k];
        disk.state := Unlinked(disk.state, Final(hash));
        disk.state := SyncedDate(disk.state);
        k := k + 1;
      }
      assert files[..k] == files;
      db := db.(filesDeleted := true);
      removed := Some(|files|);
    }
  }
}

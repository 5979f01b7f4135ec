/** An archive call that nothing interrupts: when it publishes, and when it refuses. */
module ArchiveOutcome {
  import opened Basics
  import opened ArchiveModel
  import opened ArchiveDurability
  import opened ArchiveDisposal
  import opened ArchiveHost

  /** The world once the copy under way is written, or has failed. */
  function AfterCopy(w: World, digest: Bytes -> Digest): World
    requires w.worker.Copying?
  {
    var Copying(bytes, pid, r, pc) := w.worker;
    var (d, ok) := CopyRun(DiskOf(w, r), pid, digest(bytes), bytes, pc);
    WithDisk(w, r, d).(worker :=
      if !ok then Idle else if r.Nas? then Copying(bytes, pid, Backup, MakeDirectories) else Verifying(bytes, Nas))
  }

  lemma CopyStep(w: World, digest: Bytes -> Digest)
    requires w.worker.Copying?
    ensures var next := AdvanceWorker(w, digest);
            var result := AdvanceCopy(DiskOf(w, w.worker.root), w.worker.pid, digest(w.worker.bytes), w.worker.bytes, w.worker.pc).1;
      if result.Next? then
        && next.worker == Copying(w.worker.bytes, w.worker.pid, w.worker.root, result.pc)
        && Remaining(result.pc) < Remaining(w.worker.pc) && AfterCopy(next, digest) == AfterCopy(w, digest)
      else next == AfterCopy(w, digest)
  {
    var Copying(bytes, pid, r, pc) := w.worker;
    var (d, result) := AdvanceCopy(DiskOf(w, r), pid, digest(bytes), bytes, pc);
    Unfold(DiskOf(w, r), pid, digest(bytes), bytes, pc);
    assert result.Next? ==> Remaining(result.pc) < Remaining(pc);
    hide AdvanceCopy, CopyRun, Remaining;
  }

  lemma {:induction false} CopyingAdvances(w: World, digest: Bytes -> Digest, m: nat, end: World) returns (n: nat)
    requires w.worker.Copying? && Advances(AfterCopy(w, digest), digest, m, end)
    ensures Advances(w, digest, n, end)
    decreases Remaining(w.worker.pc)
  {
    CopyStep(w, digest);
    var next := AdvanceWorker(w, digest);
    hide AdvanceWorker, AfterCopy, Advances, AdvanceCopy, Remaining;
    if next == AfterCopy(w, digest) {
      n := m + 1;
      Onward(w, digest, m, end);
    } else {
      n := CopyingAdvances(next, digest, m, end);
      Onward(w, digest, n, end);
      n := n + 1;
    }
  }

  lemma NewCopySucceedsIff(d: Disk, pid: nat, hash: Digest, bytes: Bytes)
    requires Sane(d) && d.v1 && d.date
    ensures CopyRun(d, pid, hash, bytes, OpenTemporary).1 <==> Temporary(pid) !in d.live
  {
    Unfold(d, pid, hash, bytes, OpenTemporary);
    if Temporary(pid) !in d.live {
      TemporaryRun(d, pid, hash, bytes);
      PreparedHolds(d, pid, hash, bytes);
      var prepared := Prepared(d, pid, bytes);
      ReadHasName(prepared, Temporary(pid));
      Unfold(prepared, pid, hash, bytes, ReadBack(d.nextInode));
      Unfold(prepared, pid, hash, bytes, Rename(d.nextInode));
      hide Prepared, ReadFile, CopyRun;
      SyncsRun(Renamed(prepared, Temporary(pid), Final(hash)), pid, hash, bytes);
    }
  }

  lemma EarlierCopySucceeds(d: Disk, pid: nat, hash: Digest, bytes: Bytes)
    requires Final(hash) in d.live
    ensures CopyRun(d, pid, hash, bytes, ResyncFile).1
  {
    Unfold(d, pid, hash, bytes, ResyncFile);
    hide CopyRun;
    SyncsRun(SyncedFile(d, d.live[Final(hash)]), pid, hash, bytes);
  }

  /** An undisturbed copy succeeds exactly when the disk can hold it. */
  lemma CopySucceedsIff(d: Disk, pid: nat, hash: Digest, bytes: Bytes)
    requires Sane(d)
    ensures CopyRun(d, pid, hash, bytes, MakeDirectories).1 <==> CanHoldCopy(d, pid, hash, bytes, None)
  {
    var made := MadeDirectories(d);
    assert Sane(made) && made.v1 && made.date && made.live == d.live && ReadFile(made, Final(hash)) == ReadFile(d, Final(hash));
    Unfold(d, pid, hash, bytes, MakeDirectories);
    Unfold(made, pid, hash, bytes, Look);
    hide CopyRun, ReadFile, Sane;
    var existing := ReadFile(made, Final(hash));
    if existing.None? {
      NewCopySucceedsIff(made, pid, hash, bytes);
    } else if existing.value == bytes {
      ReadHasName(made, Final(hash));
      EarlierCopySucceeds(made, pid, hash, bytes);
    }
  }

  /** What one undisturbed copy comes to. */
  lemma CopyOutcome(d: Disk, pid: nat, hash: Digest, bytes: Bytes)
    requires Sane(d)
    ensures var (next, ok) := CopyRun(d, pid, hash, bytes, MakeDirectories);
      (ok <==> CanHoldCopy(d, pid, hash, bytes, None)) && (ok ==> Stored(next, hash, bytes))
  {
    CopySucceedsIff(d, pid, hash, bytes);
    NothingDone(d, pid, hash, bytes);
    CopyRunStores(d, pid, hash, bytes, MakeDirectories);
  }

  lemma StoredIsVerified(w: World, digest: Bytes -> Digest, bytes: Bytes)
    requires w.worker == Verifying(bytes, Nas) && Stored(w.nas, digest(bytes), bytes) && Stored(w.backup, digest(bytes), bytes)
    ensures Advances(w, digest, 3, w.(db := w.db.(receipt := Some(Receipt(digest(bytes), bytes)), rows := false), worker := Idle))
  {
    var second := w.(worker := Verifying(bytes, Backup));
    var third := w.(worker := Publishing(bytes));
    assert AdvanceWorker(w, digest) == second && AdvanceWorker(second, digest) == third;
    var end := AdvanceWorker(third, digest);
    Onward(third, digest, 0, end);
    Onward(second, digest, 1, end);
    Onward(w, digest, 2, end);
  }

  /** An archive call that is not interrupted publishes its receipt, and takes the rows away, exactly when both disks can
      hold the copy, and has then stored it on both; otherwise the database is as it was. */
  lemma ArchivesIff(w: World, digest: Bytes -> Digest, pid: nat) returns (n: nat, end: World)
    requires Enabled(w, BeginArchive(pid)) && Sane(w.nas) && Sane(w.backup)
    ensures Advances(Apply(w, digest, BeginArchive(pid)), digest, n, end) && end.worker.Idle?
    ensures var bytes, hash := w.db.source, digest(w.db.source);
      if CanHoldCopy(w.nas, pid, hash, bytes, None) && CanHoldCopy(w.backup, pid, hash, bytes, None) then
        && end.db == w.db.(receipt := Some(Receipt(hash, bytes)), rows := false)
        && Stored(end.nas, hash, bytes) && Stored(end.backup, hash, bytes)
      else end.db == w.db
  {
    var bytes, hash := w.db.source, digest(w.db.source);
    CopyOutcome(w.nas, pid, hash, bytes);
    CopyOutcome(w.backup, pid, hash, bytes);
    var begun := Apply(w, digest, BeginArchive(pid));
    var first := AfterCopy(begun, digest);
    hide CopyRun, CanHoldCopy, Stored, Sane, AdvanceWorker;
    if !first.worker.Copying? {
      end := first;
      n := CopyingAdvances(begun, digest, 0, end);
    } else {
      var second := AfterCopy(first, digest);
      var m := 0;
      end := second;
      if second.worker.Verifying? {
        StoredIsVerified(second, digest, bytes);
        m, end := 3, second.(db := w.db.(receipt := Some(Receipt(hash, bytes)), rows := false), worker := Idle);
      }
      m := CopyingAdvances(first, digest, m, end);
      n := CopyingAdvances(begun, digest, m, end);
    }
  }
}

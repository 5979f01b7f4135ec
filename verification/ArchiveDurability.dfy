/** Under every schedule of crashes: raw rows are gone only when both disks durably hold their archive. */
module ArchiveDurability {
  import opened Basics
  import opened ArchiveModel

  /** The copy and the path to it are in both views, and its bytes are synced. */
  predicate Stored(d: Disk, hash: Digest, bytes: Bytes) {
    && d.v1 && d.date && d.savedV1 && d.savedDate
    && Final(hash) in d.live && Final(hash) in d.saved && d.saved[Final(hash)] == d.live[Final(hash)]
    && d.live[Final(hash)] in d.inodes && d.inodes[d.live[Final(hash)]] == Content(bytes, true)
  }

  /** Entries point at files, files lie in directories, and new files get new inodes. */
  ghost predicate Sane(d: Disk) {
    && (forall e :: e in d.live ==> d.live[e] in d.inodes && d.v1 && d.date)
    && (forall e :: e in d.saved ==> d.saved[e] in d.inodes && d.v1 && d.date)
    && (forall i :: i in d.inodes ==> i < d.nextInode)
    && (d.savedV1 ==> d.v1) && (d.savedDate ==> d.date)
  }

  /** The temporary file is reachable by its own name only. */
  ghost predicate Owns(d: Disk, pid: nat, ino: Inode) {
    && Temporary(pid) in d.live && d.live[Temporary(pid)] == ino && ino in d.inodes
    && (forall e :: e in d.live && d.live[e] == ino ==> e == Temporary(pid))
    && (forall e :: e in d.saved && d.saved[e] == ino ==> e == Temporary(pid))
  }

  predicate Holds(d: Disk, ino: Inode, bytes: Bytes) {
    ino in d.inodes && d.inodes[ino] == Content(bytes, true)
  }

  /** How far the copy on one disk has come. `trusted`: the medium has not corrupted anything on this disk. */
  ghost predicate Partial(d: Disk, trusted: bool, pid: nat, hash: Digest, bytes: Bytes, pc: Pc) {
    && (!pc.MakeDirectories? ==> d.v1 && d.date)
    && (pc.ResyncFile? && trusted ==> ReadFile(d, Final(hash)) == Some(bytes))
    && (pc.WriteTemporary? || pc.SyncTemporary? || pc.ReadBack? || pc.Rename? ==> Owns(d, pid, pc.ino))
    && (pc.SyncTemporary? && trusted ==> d.inodes[pc.ino].bytes == bytes)
    && (pc.ReadBack? || pc.Rename? ==> trusted ==> Holds(d, pc.ino, bytes))
    && (pc.SyncDate? || pc.SyncV1? || pc.SyncRoot? ==>
          Final(hash) in d.live && (trusted ==> Holds(d, d.live[Final(hash)], bytes)))
    && (pc.SyncV1? || pc.SyncRoot? ==> Final(hash) in d.saved && d.saved[Final(hash)] == d.live[Final(hash)])
    && (pc.SyncRoot? ==> d.savedDate)
  }

  ghost predicate Safe(w: World, digest: Bytes -> Digest, r: Root, bytes: Bytes) {
    r in w.damaged || Stored(DiskOf(w, r), digest(bytes), bytes)
  }

  /** The rows are there and locked, and everything done so far is safe. */
  ghost predicate CallInvariant(w: World, digest: Bytes -> Digest) {
    match w.worker
    case Copying(bytes, pid, r, pc) =>
      && w.db.rows && w.db.source == bytes && !w.db.disposed
      && (r.Backup? ==> Safe(w, digest, Nas, bytes))
      && Partial(DiskOf(w, r), r !in w.damaged, pid, digest(bytes), bytes, pc)
    case Verifying(bytes, _) =>
      w.db.rows && w.db.source == bytes && !w.db.disposed && Safe(w, digest, Nas, bytes) && Safe(w, digest, Backup, bytes)
    case Publishing(bytes) =>
      w.db.rows && w.db.source == bytes && !w.db.disposed && Safe(w, digest, Nas, bytes) && Safe(w, digest, Backup, bytes)
    case _ => true
  }

  /** Rows leave the database only for a receipt or a disposal, and a receipt is backed by both disks until then. */
  ghost predicate ReceiptInvariant(w: World, digest: Bytes -> Digest) {
    && (!w.db.rows ==> w.db.receipt.Some? || w.db.disposed)
    && (w.db.receipt.Some? || w.db.disposed ==> !w.db.rows)
    && (w.db.receipt.Some? ==>
          && w.db.receipt.value.hash == digest(w.db.receipt.value.bytes)
          && w.db.receipt.value.bytes == w.db.source
          && (!w.db.disposed ==>
                Safe(w, digest, Nas, w.db.receipt.value.bytes) && Safe(w, digest, Backup, w.db.receipt.value.bytes)))
  }

  ghost predicate Gone(d: Disk, hash: Digest) {
    Final(hash) !in d.live
  }

  /** A deletion works on a disposed batch, and a copy it no longer has to remove is not there. */
  ghost predicate DeletionInvariant(w: World) {
    match w.worker
    case Checking(hash, r, found) =>
      && Deletable(w, hash)
      && (if r.Nas? then found == [] else found == [Nas] || (found == [] && Gone(w.nas, hash)))
    case Unlinking(hash, found) =>
      && Deletable(w, hash) && (forall r :: r in found || Gone(DiskOf(w, r), hash))
    case SyncingRemoval(hash, done, found) =>
      && Deletable(w, hash) && (forall r :: r in found || Gone(DiskOf(w, r), hash)) && Gone(DiskOf(w, done), hash)
    case _ => true
  }

  ghost predicate Deletable(w: World, hash: Digest) {
    w.db.disposed && !w.db.filesDeleted && w.db.receipt.Some? && hash == w.db.receipt.value.hash
  }

  ghost predicate FilesOrder(db: Database) {
    db.filesDeleted ==> db.disposed && db.receipt.Some?
  }

  ghost predicate Invariant(w: World, digest: Bytes -> Digest) {
    && Sane(w.nas) && Sane(w.backup)
    && CallInvariant(w, digest) && ReceiptInvariant(w, digest) && DeletionInvariant(w) && FilesOrder(w.db)
  }

  // ----- operations on one disk -----

  lemma SyncsKeepSane(d: Disk)
    requires Sane(d)
    ensures Sane(SyncedDate(d)) && Sane(SyncedV1(d)) && Sane(SyncedRoot(d))
  {}

  lemma FlushKeepsSane(d: Disk, e: Entry)
    requires Sane(d)
    ensures Sane(Flushed(d, e))
  {}

  lemma UnlinkKeepsSane(d: Disk, e: Entry)
    requires Sane(d)
    ensures Sane(Unlinked(d, e))
  {}

  lemma PowerLossKeepsSane(d: Disk, torn: map<Inode, Bytes>)
    requires Sane(d)
    ensures Sane(AfterPowerLoss(d, torn))
  {}

  lemma DamageKeepsSane(d: Disk, e: Entry, bytes: Bytes)
    requires Sane(d) && e in d.live
    ensures Sane(d.(inodes := d.inodes[d.live[e] := Content(bytes, true)]))
  {}

  lemma CopyKeepsSane(d: Disk, trusted: bool, pid: nat, hash: Digest, bytes: Bytes, pc: Pc)
    requires Sane(d) && Partial(d, trusted, pid, hash, bytes, pc)
    ensures Sane(AdvanceCopy(d, pid, hash, bytes, pc).0)
  {
    hide ReadFile, Holds;
    SyncsKeepSane(d);
    UnlinkKeepsSane(d, Temporary(pid));
  }

  /** One operation further: the copy is as far as the next operation needs, and after the last one it is stored. */
  lemma CopyAdvances(d: Disk, trusted: bool, pid: nat, hash: Digest, bytes: Bytes, pc: Pc)
    requires Sane(d) && Partial(d, trusted, pid, hash, bytes, pc)
    ensures var (next, result) := AdvanceCopy(d, pid, hash, bytes, pc);
      && (result.Next? ==> Partial(next, trusted, pid, hash, bytes, result.pc))
      && (result.Written? && trusted ==> Stored(next, hash, bytes))
  {}

  // ----- what happens to a disk by itself -----

  lemma StoredSurvives(d: Disk, hash: Digest, bytes: Bytes, e: Entry, torn: map<Inode, Bytes>)
    requires Stored(d, hash, bytes)
    ensures Stored(Flushed(d, e), hash, bytes) && Stored(SyncedV1(d), hash, bytes) && Stored(SyncedRoot(d), hash, bytes)
    ensures Stored(AfterPowerLoss(d, torn), hash, bytes)
    ensures e != Final(hash) ==> Stored(Unlinked(d, e), hash, bytes)
  {}

  lemma PartialSurvives(d: Disk, trusted: bool, pid: nat, hash: Digest, bytes: Bytes, pc: Pc, e: Entry)
    requires Sane(d) && Partial(d, trusted, pid, hash, bytes, pc)
    ensures Partial(Flushed(d, e), trusted, pid, hash, bytes, pc)
    ensures Partial(SyncedV1(d), trusted, pid, hash, bytes, pc) && Partial(SyncedRoot(d), trusted, pid, hash, bytes, pc)
  {}

  lemma PartialAfterDamage(d: Disk, trusted: bool, pid: nat, hash: Digest, bytes: Bytes, pc: Pc, e: Entry, other: Bytes)
    requires Sane(d) && e in d.live && Partial(d, trusted, pid, hash, bytes, pc)
    ensures Partial(d.(inodes := d.inodes[d.live[e] := Content(other, true)]), false, pid, hash, bytes, pc)
  {}

  // ----- every step -----

  lemma StepKeepsSane(w: World, digest: Bytes -> Digest, s: Step)
    requires Sane(w.nas) && Sane(w.backup) && CallInvariant(w, digest) && Enabled(w, s)
    ensures Sane(Apply(w, digest, s).nas) && Sane(Apply(w, digest, s).backup)
  {
    hide Sane, Partial, Safe, AdvanceCopy, AfterPowerLoss, Flushed, Unlinked, SyncedDate, SyncedV1, SyncedRoot, ReadFile;
    match s
    case Advance =>
      if w.worker.Copying? {
        var Copying(bytes, pid, r, pc) := w.worker;
        CopyKeepsSane(DiskOf(w, r), r !in w.damaged, pid, digest(bytes), bytes, pc);
      } else if w.worker.Unlinking? && w.worker.found != [] {
        UnlinkKeepsSane(DiskOf(w, w.worker.found[0]), Final(w.worker.hash));
      } else if w.worker.SyncingRemoval? {
        SyncsKeepSane(DiskOf(w, w.worker.root));
      }
    case Fail(_) =>
      if w.worker.Copying? { UnlinkKeepsSane(DiskOf(w, w.worker.root), Temporary(w.worker.pid)); }
    case PowerLoss(torn) => PowerLossKeepsSane(w.nas, torn); PowerLossKeepsSane(w.backup, torn);
    case Flush(r, e) => FlushKeepsSane(DiskOf(w, r), e);
    case FlushDirectory(r, _) => SyncsKeepSane(DiskOf(w, r));
    case Damage(r, e, bytes) => DamageKeepsSane(DiskOf(w, r), e, bytes);
    case _ =>
  }

  lemma AdvanceKeepsCall(w: World, digest: Bytes -> Digest)
    requires Sane(w.nas) && Sane(w.backup) && CallInvariant(w, digest) && !w.worker.Idle?
    ensures CallInvariant(AdvanceWorker(w, digest), digest)
  {
    if w.worker.Copying? {
      var Copying(bytes, pid, r, pc) := w.worker;
      CopyAdvances(DiskOf(w, r), r !in w.damaged, pid, digest(bytes), bytes, pc);
      hide Sane, Stored, AdvanceCopy;
      assert Partial(w.backup, Backup !in w.damaged, pid, digest(bytes), bytes, MakeDirectories);
      hide Partial;
    } else {
      hide Sane, Stored, Partial, ReadFile;
    }
  }

  lemma SafeSurvives(w: World, digest: Bytes -> Digest, s: Step, r: Root, bytes: Bytes)
    requires Enabled(w, s) && Safe(w, digest, r, bytes)
    requires s.PowerLoss? || s.Flush? || s.FlushDirectory? || s.Damage? || s.Fail? || s.ProcessExit?
    ensures Safe(Apply(w, digest, s), digest, r, bytes)
  {
    var d, hash := DiskOf(w, r), digest(bytes);
    if r !in w.damaged {
      if s.PowerLoss? { StoredSurvives(d, hash, bytes, Final(hash), s.torn); }
      if s.Flush? { StoredSurvives(d, hash, bytes, s.entry, map[]); }
      if s.FlushDirectory? { StoredSurvives(d, hash, bytes, Final(hash), map[]); }
      if s.Fail? && w.worker.Copying? { StoredSurvives(d, hash, bytes, Temporary(w.worker.pid), map[]); }
      hide Stored, AfterPowerLoss, Flushed, SyncedV1, SyncedRoot, Unlinked;
    }
  }

  lemma StepKeepsCall(w: World, digest: Bytes -> Digest, s: Step)
    requires Sane(w.nas) && Sane(w.backup) && CallInvariant(w, digest) && Enabled(w, s)
    ensures CallInvariant(Apply(w, digest, s), digest)
  {
    match s
    case Advance => AdvanceKeepsCall(w, digest);
    case BeginArchive(pid) =>
      assert Partial(w.nas, Nas !in w.damaged, pid, digest(w.db.source), w.db.source, MakeDirectories);
    case Flush(_, _) => EnvironmentKeepsCall(w, digest, s);
    case FlushDirectory(_, _) => EnvironmentKeepsCall(w, digest, s);
    case Damage(_, _, _) => EnvironmentKeepsCall(w, digest, s);
    case _ => hide Sane, Stored, Partial;
  }

  lemma EnvironmentKeepsCall(w: World, digest: Bytes -> Digest, s: Step)
    requires Sane(w.nas) && Sane(w.backup) && CallInvariant(w, digest) && Enabled(w, s)
    requires s.Flush? || s.FlushDirectory? || s.Damage?
    ensures CallInvariant(Apply(w, digest, s), digest)
  {
    if w.worker.Copying? {
      var Copying(bytes, pid, r, pc) := w.worker;
      var d := DiskOf(w, r);
      if r.Backup? { SafeSurvives(w, digest, s, Nas, bytes); }
      if s.Flush? { PartialSurvives(d, r !in w.damaged, pid, digest(bytes), bytes, pc, s.entry); }
      if s.FlushDirectory? { PartialSurvives(d, r !in w.damaged, pid, digest(bytes), bytes, pc, Final(0)); }
      if s.Damage? && s.root == r { PartialAfterDamage(d, r !in w.damaged, pid, digest(bytes), bytes, pc, s.entry, s.bytes); }
      hide Sane, Stored, Partial, Safe, Flushed, SyncedV1, SyncedRoot;
    } else if w.worker.Verifying? || w.worker.Publishing? {
      SafeSurvives(w, digest, s, Nas, w.worker.bytes);
      SafeSurvives(w, digest, s, Backup, w.worker.bytes);
      hide Sane, Safe, Partial;
    } else {
      hide Sane, Safe, Partial;
    }
  }

  lemma StepKeepsReceipt(w: World, digest: Bytes -> Digest, s: Step)
    requires CallInvariant(w, digest) && ReceiptInvariant(w, digest) && DeletionInvariant(w) && Enabled(w, s)
    ensures ReceiptInvariant(Apply(w, digest, s), digest)
  {
    var env := s.PowerLoss? || s.Flush? || s.FlushDirectory? || s.Damage? || s.Fail? || s.ProcessExit?;
    if env && w.db.receipt.Some? && !w.db.disposed {
      SafeSurvives(w, digest, s, Nas, w.db.receipt.value.bytes);
      SafeSurvives(w, digest, s, Backup, w.db.receipt.value.bytes);
    }
    hide Stored, Partial, AdvanceCopy, AfterPowerLoss, ReadFile, Gone;
    if s.Advance? && w.worker.Copying? {
      assert Apply(w, digest, s).db == w.db;
    }
  }

  lemma AdvanceKeepsDeletion(w: World, digest: Bytes -> Digest)
    requires !w.worker.Idle? && DeletionInvariant(w) && Sane(w.nas) && Sane(w.backup)
    ensures DeletionInvariant(AdvanceWorker(w, digest))
  {
    hide AdvanceCopy;
    match w.worker
    case Checking(hash, r, found) =>
      assert forall x: Root :: x.Nas? || x.Backup?;
    case Unlinking(hash, found) =>
      if found != [] {
        var next := AdvanceWorker(w, digest);
        assert found == [found[0]] + found[1..];
        assert Gone(DiskOf(next, found[0]), hash);
        forall r ensures r in found[1..] || Gone(DiskOf(next, r), hash) {
          if r != found[0] { assert DiskOf(next, r) == DiskOf(w, r); }
        }
      }
    case _ =>
  }

  /** What a disk does by itself, short of a power loss, leaves the live names alone. */
  lemma EnvironmentKeepsNames(w: World, digest: Bytes -> Digest, s: Step, r: Root)
    requires Enabled(w, s) && (s.Flush? || s.FlushDirectory? || s.Damage?)
    ensures DiskOf(Apply(w, digest, s), r).live == DiskOf(w, r).live
    ensures Apply(w, digest, s).worker == w.worker && Apply(w, digest, s).db == w.db
  {}

  lemma StepKeepsDeletion(w: World, digest: Bytes -> Digest, s: Step)
    requires DeletionInvariant(w) && Enabled(w, s) && FilesOrder(w.db) && Sane(w.nas) && Sane(w.backup)
    ensures DeletionInvariant(Apply(w, digest, s)) && FilesOrder(Apply(w, digest, s).db)
  {
    if s.Advance? {
      AdvanceKeepsDeletion(w, digest);
      hide AdvanceCopy, Gone, Sane;
    } else if s.Flush? || s.FlushDirectory? || s.Damage? {
      EnvironmentKeepsNames(w, digest, s, Nas);
      EnvironmentKeepsNames(w, digest, s, Backup);
      hide Apply, Sane;
    } else {
      hide Sane, Gone, AfterPowerLoss;
    }
  }

  lemma StepKeepsInvariant(w: World, digest: Bytes -> Digest, s: Step)
    requires Invariant(w, digest) && Enabled(w, s)
    ensures Invariant(Apply(w, digest, s), digest)
  {
    hide Sane, CallInvariant, ReceiptInvariant, DeletionInvariant, FilesOrder, Apply, Enabled;
    StepKeepsSane(w, digest, s);
    StepKeepsCall(w, digest, s);
    StepKeepsReceipt(w, digest, s);
    StepKeepsDeletion(w, digest, s);
  }

  lemma {:induction false} RunKeepsInvariant(w: World, digest: Bytes -> Digest, steps: seq<Step>)
    requires Invariant(w, digest) && CanRun(w, digest, steps)
    ensures Invariant(RunSteps(w, digest, steps), digest)
    decreases |steps|
  {
    if steps != [] {
      assert Enabled(w, steps[0]);
      StepKeepsInvariant(w, digest, steps[0]);
      hide Invariant, Apply, Enabled;
      RunKeepsInvariant(Apply(w, digest, steps[0]), digest, steps[1..]);
    }
  }

  lemma InitialInvariant(source: Bytes, digest: Bytes -> Digest)
    ensures Invariant(InitialWorld(source), digest)
  {}

  /** The durable archive. Whatever exits, power losses, errors and write-backs come in between, and whatever an earlier
      attempt left behind: either all rows are still in the database, or the batch was disposed of, or its receipt
      is committed and each disk, unless its medium corrupted a file, holds bytes equal to the encoded rows, with the
      recorded digest, in the view that survives a power loss. */
  lemma ArchiveIsDurable(source: Bytes, digest: Bytes -> Digest, steps: seq<Step>, r: Root)
    requires CanRun(InitialWorld(source), digest, steps)
    ensures var w := RunSteps(InitialWorld(source), digest, steps);
      || w.db.rows
      || w.db.disposed
      || (&& w.db.receipt.Some? && w.db.receipt.value.hash == digest(w.db.source) && w.db.receipt.value.bytes == w.db.source
          && (r in w.damaged || Stored(DiskOf(w, r), w.db.receipt.value.hash, w.db.source)))
  {
    InitialInvariant(source, digest);
    RunKeepsInvariant(InitialWorld(source), digest, steps);
    hide InitialWorld, CanRun, RunSteps, Sane, Stored, CallInvariant, DeletionInvariant;
  }
}

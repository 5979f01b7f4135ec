/** Deleting the archive of a disposed batch: what a call does, why it can be retried, and when the copies are gone for good. */
module ArchiveDisposal {
  import opened Basics
  import opened ArchiveModel
  import opened ArchiveDurability

  predicate Mismatch(d: Disk, hash: Digest, digest: Bytes -> Digest) {
    var copy := ReadFile(d, Final(hash));
    copy.Some? && digest(copy.value) != hash
  }

  function Removed(d: Disk, hash: Digest): Disk {
    if ReadFile(d, Final(hash)).Some? then SyncedDate(Unlinked(d, Final(hash))) else d
  }

  /** What an uninterrupted deletion leaves: everything as it was when a present copy does not match, and otherwise
      no copy, and the note that the copies are deleted. */
  function AfterDeletion(w: World, hash: Digest, digest: Bytes -> Digest): World {
    if Mismatch(w.nas, hash, digest) || Mismatch(w.backup, hash, digest) then w
    else w.(nas := Removed(w.nas, hash), backup := Removed(w.backup, hash), db := w.db.(filesDeleted := true))
  }

  // ----- running the worker -----

  /** The worker advances `n` times. */
  ghost predicate Advances(w: World, digest: Bytes -> Digest, n: nat, v: World)
    decreases n
  {
    if n == 0 then v == w else !w.worker.Idle? && Advances(AdvanceWorker(w, digest), digest, n - 1, v)
  }

  function Repeated(n: nat): seq<Step> {
    if n == 0 then [] else [Advance] + Repeated(n - 1)
  }

  lemma {:induction false} AdvancesAreARun(w: World, digest: Bytes -> Digest, n: nat, v: World)
    requires Advances(w, digest, n, v)
    ensures CanRun(w, digest, Repeated(n)) && RunSteps(w, digest, Repeated(n)) == v
    decreases n
  {
    if n > 0 {
      AdvancesAreARun(AdvanceWorker(w, digest), digest, n - 1, v);
      assert Repeated(n)[1..] == Repeated(n - 1);
    }
  }

  lemma Onward(w: World, digest: Bytes -> Digest, n: nat, v: World)
    requires !w.worker.Idle? && Advances(AdvanceWorker(w, digest), digest, n, v)
    ensures Advances(w, digest, n + 1, v)
  {}

  lemma RemovalOfOne(w: World, digest: Bytes -> Digest, hash: Digest, r: Root, rest: seq<Root>)
    requires w.worker == Unlinking(hash, [r] + rest)
    ensures var v := WithDisk(w, r, SyncedDate(Unlinked(DiskOf(w, r), Final(hash)))).(worker := Unlinking(hash, rest));
      !AdvanceWorker(w, digest).worker.Idle? && AdvanceWorker(AdvanceWorker(w, digest), digest) == v
  {
    assert ([r] + rest)[1..] == rest;
  }

  function RemovedFrom(w: World, r: Root, hash: Digest): World {
    WithDisk(w, r, SyncedDate(Unlinked(DiskOf(w, r), Final(hash))))
  }

  function Cleared(w: World, found: seq<Root>, hash: Digest): World
    decreases |found|
  {
    if found == [] then w.(db := w.db.(filesDeleted := true), worker := Idle)
    else Cleared(RemovedFrom(w, found[0], hash), found[1..], hash)
  }

  lemma {:induction false} UnlinkingFinishes(w: World, digest: Bytes -> Digest, hash: Digest, found: seq<Root>)
    requires w.worker == Unlinking(hash, found)
    ensures Advances(w, digest, 2 * |found| + 1, Cleared(w, found, hash))
    decreases |found|
  {
    if found == [] {
      assert Advances(AdvanceWorker(w, digest), digest, 0, Cleared(w, found, hash));
    } else {
      assert found == [found[0]] + found[1..];
      RemovalOfOne(w, digest, hash, found[0], found[1..]);
      var v := AdvanceWorker(AdvanceWorker(w, digest), digest);
      UnlinkingFinishes(v, digest, hash, found[1..]);
      ClearedIgnoresWorker(v, RemovedFrom(w, found[0], hash), found[1..], hash);
      hide AdvanceWorker;
      Onward(AdvanceWorker(w, digest), digest, 2 * |found| - 1, Cleared(w, found, hash));
      Onward(w, digest, 2 * |found|, Cleared(w, found, hash));
    }
  }

  lemma {:induction false} ClearedIgnoresWorker(a: World, b: World, found: seq<Root>, hash: Digest)
    requires a == b.(worker := a.worker)
    ensures Cleared(a, found, hash) == Cleared(b, found, hash)
    decreases |found|
  {
    if found != [] {
      ClearedIgnoresWorker(RemovedFrom(a, found[0], hash), RemovedFrom(b, found[0], hash), found[1..], hash);
    }
  }

  /** The copies both checks found. */
  function Present(w: World, hash: Digest): seq<Root> {
    (if ReadFile(w.nas, Final(hash)).Some? then [Nas] else []) + (if ReadFile(w.backup, Final(hash)).Some? then [Backup] else [])
  }

  lemma ClearedPresent(w: World, hash: Digest, digest: Bytes -> Digest)
    requires w.worker.Idle? && !Mismatch(w.nas, hash, digest) && !Mismatch(w.backup, hash, digest)
    ensures Cleared(w, Present(w, hash), hash) == AfterDeletion(w, hash, digest)
  {
    hide ReadFile, SyncedDate, Unlinked;
    var found := Present(w, hash);
    if found != [] {
      var v := RemovedFrom(w, found[0], hash);
      assert Cleared(w, found, hash) == Cleared(v, found[1..], hash);
      if |found| == 2 {
        assert found == [Nas, Backup] && found[1..] == [Backup] && [Backup][1..] == [];
        assert Cleared(v, [Backup], hash) == Cleared(RemovedFrom(v, Backup, hash), [], hash);
      } else {
        assert found[1..] == [];
      }
    }
  }

  lemma ChecksFind(w: World, hash: Digest, digest: Bytes -> Digest)
    requires w.worker == Checking(hash, Nas, []) && !Mismatch(w.nas, hash, digest) && !Mismatch(w.backup, hash, digest)
    ensures !AdvanceWorker(w, digest).worker.Idle?
    ensures AdvanceWorker(AdvanceWorker(w, digest), digest) == w.(worker := Unlinking(hash, Present(w, hash)))
  {
    hide ReadFile;
    var v := AdvanceWorker(w, digest);
    assert [] + [Nas] == [Nas];
    assert v == w.(worker := Checking(hash, Backup, if ReadFile(w.nas, Final(hash)).Some? then [Nas] else []));
    assert AdvanceWorker(v, digest).worker == Unlinking(hash, Present(w, hash));
  }

  /** A deletion that is not interrupted: when a present copy does not match the recorded digest, neither copy is
      touched; otherwise both are gone, and the batch says so. */
  lemma DeletionOutcome(w: World, digest: Bytes -> Digest) returns (n: nat)
    requires Enabled(w, BeginDelete)
    ensures var begun := Apply(w, digest, BeginDelete);
      Advances(begun, digest, n, AfterDeletion(w, w.db.receipt.value.hash, digest))
  {
    var hash := w.db.receipt.value.hash;
    var begun := Apply(w, digest, BeginDelete);
    var end := AfterDeletion(w, hash, digest);
    if Mismatch(w.nas, hash, digest) {
      n := 1;
      assert AdvanceWorker(begun, digest) == w;
    } else if Mismatch(w.backup, hash, digest) {
      n := 2;
      assert AdvanceWorker(AdvanceWorker(begun, digest), digest) == w;
      assert Advances(AdvanceWorker(begun, digest), digest, 1, w);
    } else {
      ChecksFind(begun, hash, digest);
      var found := Present(w, hash);
      var v := begun.(worker := Unlinking(hash, found));
      ClearedPresent(w, hash, digest);
      hide AfterDeletion, Present, Mismatch, AdvanceWorker, Advances;
      UnlinkingFinishes(v, digest, hash, found);
      ClearedIgnoresWorker(v, w, found, hash);
      n := 2 * |found| + 3;
      Onward(AdvanceWorker(begun, digest), digest, 2 * |found| + 1, end);
      Onward(begun, digest, 2 * |found| + 2, end);
    }
  }

  // ----- an interrupted deletion -----

  predicate Matching(w: World, hash: Digest, digest: Bytes -> Digest) {
    !Mismatch(w.nas, hash, digest) && !Mismatch(w.backup, hash, digest)
  }

  /** `e` is `d`, possibly without the copy. */
  predicate Trimmed(d: Disk, e: Disk, hash: Digest) {
    e.inodes == d.inodes && (e.live == d.live || e.live == d.live - {Final(hash)})
  }

  /** `v` is somewhere in the deletion that began in `w`. */
  ghost predicate Partway(w: World, v: World, hash: Digest, digest: Bytes -> Digest) {
    && Trimmed(w.nas, v.nas, hash) && Trimmed(w.backup, v.backup, hash)
    && ((v.nas.live == w.nas.live && v.backup.live == w.backup.live) || Matching(w, hash, digest))
    && (match v.worker
        case Idle => v.db == w.db || (v.db == w.db.(filesDeleted := true) && Matching(w, hash, digest)
                                       && Gone(v.nas, hash) && Gone(v.backup, hash))
        case Checking(h, r, found) => h == hash && v.db == w.db && v.nas == w.nas && v.backup == w.backup
                                      && (r.Backup? ==> !Mismatch(w.nas, hash, digest))
        case Unlinking(h, _) => h == hash && v.db == w.db && Matching(w, hash, digest)
        case SyncingRemoval(h, _, _) => h == hash && v.db == w.db && Matching(w, hash, digest)
        case _ => false)
  }

  lemma AdvanceStaysPartway(w: World, v: World, hash: Digest, digest: Bytes -> Digest)
    requires Partway(w, v, hash, digest) && !v.worker.Idle? && DeletionInvariant(v)
    ensures Partway(w, AdvanceWorker(v, digest), hash, digest)
  {
    hide ReadFile;
    match v.worker
    case Unlinking(h, found) =>
      if found == [] {
        assert Gone(DiskOf(v, Nas), hash) && Gone(DiskOf(v, Backup), hash);
      }
    case _ =>
  }

  lemma {:induction false} AdvancesStayPartway(w: World, a: World, v: World, hash: Digest, digest: Bytes -> Digest, n: nat)
    requires Partway(w, a, hash, digest) && Advances(a, digest, n, v)
    requires DeletionInvariant(a) && Sane(a.nas) && Sane(a.backup)
    ensures Partway(w, v, hash, digest)
    decreases n
  {
    if n > 0 {
      AdvanceStaysPartway(w, a, hash, digest);
      AdvanceKeepsDeletion(a, digest);
      AdvancingDeletionKeepsSane(a, digest) by { assert !a.worker.Copying?; }
      hide Partway, AdvanceWorker, DeletionInvariant, Sane;
      AdvancesStayPartway(w, AdvanceWorker(a, digest), v, hash, digest, n - 1);
    }
  }

  lemma AdvancingDeletionKeepsSane(w: World, digest: Bytes -> Digest)
    requires Sane(w.nas) && Sane(w.backup) && (w.worker.Checking? || w.worker.Unlinking? || w.worker.SyncingRemoval?)
    ensures Sane(AdvanceWorker(w, digest).nas) && Sane(AdvanceWorker(w, digest).backup)
  {
    if w.worker.Unlinking? && w.worker.found != [] {
      UnlinkKeepsSane(DiskOf(w, w.worker.found[0]), Final(w.worker.hash));
    } else if w.worker.SyncingRemoval? {
      SyncsKeepSane(DiskOf(w, w.worker.root));
    }
    hide Sane;
  }

  /** Processes cannot tell the two worlds apart. */
  predicate SameToProcesses(a: World, b: World) {
    && a.db == b.db
    && a.nas.live == b.nas.live && a.nas.inodes == b.nas.inodes
    && a.backup.live == b.backup.live && a.backup.inodes == b.backup.inodes
  }

  /** The process may exit after any number of operations of a deletion, between the two unlinks too: either the call had
      finished, or a further call ends with what the first one would have ended with. */
  lemma DeletionCanBeRetried(w: World, digest: Bytes -> Digest, n: nat, v: World)
    requires Invariant(w, digest) && Enabled(w, BeginDelete) && Advances(Apply(w, digest, BeginDelete), digest, n, v)
    ensures var hash := w.db.receipt.value.hash;
            var exited := v.(worker := Idle);
      if v.db.filesDeleted then SameToProcesses(exited, AfterDeletion(w, hash, digest))
      else Enabled(exited, BeginDelete)
           && SameToProcesses(AfterDeletion(exited, hash, digest), AfterDeletion(w, hash, digest))
  {
    var hash := w.db.receipt.value.hash;
    var begun := Apply(w, digest, BeginDelete);
    assert Partway(w, begun, hash, digest) && DeletionInvariant(begun);
    AdvancesStayPartway(w, begun, v, hash, digest, n);
    RetryFromPartway(w, v, hash, digest);
  }

  lemma RetryFromPartway(w: World, v: World, hash: Digest, digest: Bytes -> Digest)
    requires Partway(w, v, hash, digest) && w.worker.Idle? && !w.db.filesDeleted && Sane(w.nas) && Sane(w.backup)
    ensures var exited := v.(worker := Idle);
      if v.db.filesDeleted then SameToProcesses(exited, AfterDeletion(w, hash, digest))
      else v.db == w.db && SameToProcesses(AfterDeletion(exited, hash, digest), AfterDeletion(w, hash, digest))
  {
    TrimmedRead(w.nas, v.nas, hash, digest);
    TrimmedRead(w.backup, v.backup, hash, digest);
    hide ReadFile;
  }

  lemma TrimmedRead(d: Disk, e: Disk, hash: Digest, digest: Bytes -> Digest)
    requires Trimmed(d, e, hash) && Sane(d)
    ensures Mismatch(e, hash, digest) ==> Mismatch(d, hash, digest)
    ensures e.live == d.live ==> ReadFile(e, Final(hash)) == ReadFile(d, Final(hash))
    ensures Removed(e, hash).live == Removed(d, hash).live
    ensures Gone(e, hash) ==> e.live == Removed(d, hash).live
  {
    assert (d.live - {Final(hash)}) - {Final(hash)} == d.live - {Final(hash)};
    if Final(hash) !in d.live { assert d.live - {Final(hash)} == d.live; }
  }

  // ----- gone for good -----

  predicate NoTrace(d: Disk, hash: Digest) {
    Final(hash) !in d.live && Final(hash) !in d.saved
  }

  ghost predicate Erased(w: World, hash: Digest) {
    w.db.filesDeleted && NoTrace(w.nas, hash) && NoTrace(w.backup, hash)
  }

  lemma NobodyWorksOnDeleted(w: World, digest: Bytes -> Digest)
    requires Invariant(w, digest) && w.db.filesDeleted
    ensures w.worker.Idle? && !w.db.rows && w.db.disposed
  {
    hide Sane, Partial, Safe, Gone;
  }

  lemma StepKeepsErased(w: World, digest: Bytes -> Digest, s: Step, hash: Digest)
    requires Invariant(w, digest) && Enabled(w, s) && Erased(w, hash)
    ensures Erased(Apply(w, digest, s), hash)
  {
    NobodyWorksOnDeleted(w, digest);
    hide Invariant;
  }

  lemma {:induction false} RunKeepsErased(w: World, digest: Bytes -> Digest, steps: seq<Step>, hash: Digest)
    requires Invariant(w, digest) && CanRun(w, digest, steps) && Erased(w, hash)
    ensures Erased(RunSteps(w, digest, steps), hash)
    decreases |steps|
  {
    if steps != [] {
      assert Enabled(w, steps[0]);
      StepKeepsErased(w, digest, steps[0], hash);
      StepKeepsInvariant(w, digest, steps[0]);
      hide Invariant, Erased, Apply, Enabled;
      RunKeepsErased(Apply(w, digest, steps[0]), digest, steps[1..], hash);
    }
  }

  lemma RunOneMore(w: World, digest: Bytes -> Digest, s: Step, rest: seq<Step>)
    requires Enabled(w, s) && CanRun(Apply(w, digest, s), digest, rest)
    ensures CanRun(w, digest, [s] + rest)
    ensures RunSteps(w, digest, [s] + rest) == RunSteps(Apply(w, digest, s), digest, rest)
  {
    assert ([s] + rest)[1..] == rest;
    hide Enabled, Apply;
  }

  /** An entry that is gone from the live view only comes back with the next power loss. */
  lemma SavedEntryComesBack(w: World, digest: Bytes -> Digest, r: Root, hash: Digest) returns (steps: seq<Step>)
    requires Sane(DiskOf(w, r)) && Final(hash) in DiskOf(w, r).saved
    ensures CanRun(w, digest, steps) && !Gone(DiskOf(RunSteps(w, digest, steps), r), hash)
  {
    var a := Apply(w, digest, FlushDirectory(r, true));
    var b := Apply(a, digest, FlushDirectory(r, false));
    var c := Apply(b, digest, PowerLoss(map[]));
    assert DiskOf(b, r).savedV1 && DiskOf(b, r).savedDate && DiskOf(b, r).saved == DiskOf(w, r).saved;
    assert DiskOf(c, r).live == DiskOf(w, r).saved;
    assert CanRun(c, digest, []) && RunSteps(c, digest, []) == c;
    hide Apply, AfterPowerLoss;
    RunOneMore(b, digest, PowerLoss(map[]), []);
    RunOneMore(a, digest, FlushDirectory(r, false), [PowerLoss(map[])] + []);
    RunOneMore(w, digest, FlushDirectory(r, true), [FlushDirectory(r, false)] + ([PowerLoss(map[])] + []));
    steps := [FlushDirectory(r, true)] + ([FlushDirectory(r, false)] + ([PowerLoss(map[])] + []));
  }

  /** No run from `w` ever shows a copy again. */
  ghost predicate GoneForGood(w: World, digest: Bytes -> Digest, hash: Digest) {
    forall steps {:trigger CanRun(w, digest, steps)} :: CanRun(w, digest, steps) ==>
      Gone(RunSteps(w, digest, steps).nas, hash) && Gone(RunSteps(w, digest, steps).backup, hash)
  }

  lemma GoneForGoodIff(w: World, digest: Bytes -> Digest, hash: Digest)
    requires Invariant(w, digest) && w.db.filesDeleted && Gone(w.nas, hash) && Gone(w.backup, hash)
    ensures GoneForGood(w, digest, hash) <==> Final(hash) !in w.nas.saved && Final(hash) !in w.backup.saved
  {
    if Final(hash) !in w.nas.saved && Final(hash) !in w.backup.saved {
      forall steps | CanRun(w, digest, steps)
        ensures Gone(RunSteps(w, digest, steps).nas, hash) && Gone(RunSteps(w, digest, steps).backup, hash)
      {
        RunKeepsErased(w, digest, steps, hash);
      }
    } else {
      var r := if Final(hash) in w.nas.saved then Nas else Backup;
      var steps := SavedEntryComesBack(w, digest, r, hash);
      assert CanRun(w, digest, steps);
    }
  }

  /** A removal that was made but not yet synced: gone for processes, not for a power loss. */
  predicate PendingRemoval(d: Disk, hash: Digest) {
    Final(hash) !in d.live && Final(hash) in d.saved
  }

  /** A deletion that completes leaves no copy a process could see. It leaves none for good exactly when no disk had a
      pending removal of an interrupted earlier call: the retry finds that file missing and does not sync its
      directory, so a power loss after the final note brings the copy back. */
  lemma DeletionIsForGoodIff(w: World, digest: Bytes -> Digest)
    requires Invariant(w, digest) && Enabled(w, BeginDelete) && Matching(w, w.db.receipt.value.hash, digest)
    ensures var hash := w.db.receipt.value.hash;
            var end := AfterDeletion(w, hash, digest);
      && end.db.filesDeleted && Gone(end.nas, hash) && Gone(end.backup, hash)
      && (GoneForGood(end, digest, hash) <==> !PendingRemoval(w.nas, hash) && !PendingRemoval(w.backup, hash))
  {
    var hash := w.db.receipt.value.hash;
    var end := AfterDeletion(w, hash, digest);
    var n := DeletionOutcome(w, digest);
    AdvancesAreARun(Apply(w, digest, BeginDelete), digest, n, end);
    StepKeepsInvariant(w, digest, BeginDelete);
    RunKeepsInvariant(Apply(w, digest, BeginDelete), digest, Repeated(n));
    assert Sane(w.nas) && Sane(w.backup);
    RemovedTraces(w.nas, hash);
    RemovedTraces(w.backup, hash);
    hide Invariant, GoneForGood, Enabled, Apply, CanRun, RunSteps, Repeated, Advances, Mismatch, Removed, Sane;
    GoneForGoodIff(end, digest, hash);
  }

  lemma RemovedTraces(d: Disk, hash: Digest)
    requires Sane(d)
    ensures Gone(Removed(d, hash), hash)
    ensures Final(hash) !in Removed(d, hash).saved <==> !PendingRemoval(d, hash)
  {}

  /** Such a pending removal is what a process exit between an unlink and the sync of its directory leaves. */
  lemma ExitLeavesPendingRemoval(w: World, digest: Bytes -> Digest) returns (v: World)
    requires Invariant(w, digest) && Enabled(w, BeginDelete) && Matching(w, w.db.receipt.value.hash, digest)
    requires Final(w.db.receipt.value.hash) in w.nas.live && Final(w.db.receipt.value.hash) in w.nas.saved
    ensures Advances(Apply(w, digest, BeginDelete), digest, 3, v)
    ensures var exited := v.(worker := Idle); PendingRemoval(exited.nas, w.db.receipt.value.hash) && Enabled(exited, BeginDelete)
  {
    var hash := w.db.receipt.value.hash;
    var begun := Apply(w, digest, BeginDelete);
    assert Sane(w.nas);
    ChecksFind(begun, hash, digest);
    var u := AdvanceWorker(AdvanceWorker(begun, digest), digest);
    assert u.worker == Unlinking(hash, Present(w, hash)) && Present(w, hash)[0] == Nas;
    v := AdvanceWorker(u, digest);
    assert v.nas == Unlinked(w.nas, Final(hash));
    assert Advances(u, digest, 1, v);
    hide AdvanceWorker, Mismatch, Present, Invariant;
    Onward(AdvanceWorker(begun, digest), digest, 1, v);
    Onward(begun, digest, 2, v);
  }

  // ----- what may remove a copy at all -----

  /** A process makes a copy disappear only as a deletion of a committed disposal that checked both disks first, and
      never the copy of a batch that still counts on it. */
  lemma OnlyDisposalRemoves(w: World, digest: Bytes -> Digest, s: Step, r: Root)
    requires Invariant(w, digest) && Enabled(w, s) && w.db.receipt.Some? && !s.PowerLoss?
    requires !Gone(DiskOf(w, r), w.db.receipt.value.hash) && Gone(DiskOf(Apply(w, digest, s), r), w.db.receipt.value.hash)
    ensures s.Advance? && w.worker.Unlinking? && w.db.disposed && !w.db.filesDeleted && r in w.worker.found
  {
    assert !w.db.rows;
    assert !w.worker.Copying? && !w.worker.Verifying? && !w.worker.Publishing?;
    if s.Flush? || s.FlushDirectory? || s.Damage? {
      EnvironmentKeepsNames(w, digest, s, r);
    }
    hide Sane, Safe, Partial;
  }
}

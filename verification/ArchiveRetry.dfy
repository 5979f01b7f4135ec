/**
 * Deletions that are interrupted, by a process exit or by a power loss: as long as the media corrupt nothing, a retry
 * always finds copies that match, or none, and always completes.
 */
module ArchiveRetry {
  import opened Basics
  import opened ArchiveModel
  import opened ArchiveDurability
  import opened ArchiveDisposal

  /** Wherever the copy's name appears, now or after a power loss, it stands for synced bytes that match. */
  ghost predicate TrueCopy(d: Disk, hash: Digest, bytes: Bytes) {
    && (Final(hash) in d.live ==> Holds(d, d.live[Final(hash)], bytes))
    && (Final(hash) in d.saved ==> Holds(d, d.saved[Final(hash)], bytes))
  }

  ghost predicate TrueCopies(w: World) {
    w.db.receipt.Some? ==>
      forall r :: r in w.damaged || TrueCopy(DiskOf(w, r), w.db.receipt.value.hash, w.db.receipt.value.bytes)
  }

  lemma StoredIsTrue(d: Disk, hash: Digest, bytes: Bytes)
    requires Stored(d, hash, bytes)
    ensures TrueCopy(d, hash, bytes)
  {}

  lemma TrueCopySurvives(d: Disk, hash: Digest, bytes: Bytes, e: Entry)
    requires TrueCopy(d, hash, bytes)
    ensures TrueCopy(Unlinked(d, e), hash, bytes) && TrueCopy(Flushed(d, e), hash, bytes)
    ensures TrueCopy(SyncedDate(d), hash, bytes) && TrueCopy(SyncedV1(d), hash, bytes) && TrueCopy(SyncedRoot(d), hash, bytes)
  {}

  lemma TrueCopySurvivesPowerLoss(d: Disk, hash: Digest, bytes: Bytes, torn: map<Inode, Bytes>)
    requires TrueCopy(d, hash, bytes)
    ensures TrueCopy(AfterPowerLoss(d, torn), hash, bytes)
  {}

  /** Once there is a receipt nothing is archived any more. */
  lemma NoCopyingAfterReceipt(w: World, digest: Bytes -> Digest)
    requires Invariant(w, digest) && w.db.receipt.Some?
    ensures w.worker.Idle? || w.worker.Checking? || w.worker.Unlinking? || w.worker.SyncingRemoval?
  {
    hide Sane, Partial, Safe, Gone;
  }

  /** A step leaves a disk alone, damages it, or does one of these things to it. */
  ghost predicate DiskStep(d: Disk, next: Disk, hash: Digest) {
    || next == d || next == Unlinked(d, Final(hash)) || next == SyncedDate(d) || next == SyncedV1(d) || next == SyncedRoot(d)
    || (exists e :: next == Flushed(d, e)) || (exists torn :: next == AfterPowerLoss(d, torn))
  }

  lemma DiskStepIsTrue(d: Disk, next: Disk, hash: Digest, bytes: Bytes)
    requires TrueCopy(d, hash, bytes) && DiskStep(d, next, hash)
    ensures TrueCopy(next, hash, bytes)
  {
    hide TrueCopy, Unlinked, SyncedDate, SyncedV1, SyncedRoot, Flushed, AfterPowerLoss;
    TrueCopySurvives(d, hash, bytes, Final(hash));
    if e :| next == Flushed(d, e) { TrueCopySurvives(d, hash, bytes, e); }
    if torn :| next == AfterPowerLoss(d, torn) { TrueCopySurvivesPowerLoss(d, hash, bytes, torn); }
  }

  lemma StepIsDiskStep(w: World, digest: Bytes -> Digest, s: Step, r: Root)
    requires Invariant(w, digest) && Enabled(w, s) && w.db.receipt.Some?
    ensures Apply(w, digest, s).db.receipt == w.db.receipt
    ensures r in Apply(w, digest, s).damaged || (r !in w.damaged
              && DiskStep(DiskOf(w, r), DiskOf(Apply(w, digest, s), r), w.db.receipt.value.hash))
  {
    NoCopyingAfterReceipt(w, digest);
    assert DeletionInvariant(w) && ReceiptInvariant(w, digest);
    hide Sane, CallInvariant, Safe, Gone, Unlinked, SyncedDate, SyncedV1, SyncedRoot, Flushed, AfterPowerLoss, ReadFile, Invariant;
  }

  lemma StepKeepsTrue(w: World, digest: Bytes -> Digest, s: Step)
    requires Invariant(w, digest) && TrueCopies(w) && Enabled(w, s)
    ensures TrueCopies(Apply(w, digest, s))
  {
    var next := Apply(w, digest, s);
    if w.db.receipt.Some? {
      forall r | r !in next.damaged
        ensures next.db.receipt == w.db.receipt && TrueCopy(DiskOf(next, r), w.db.receipt.value.hash, w.db.receipt.value.bytes)
      {
        StepIsDiskStep(w, digest, s, r);
        hide TrueCopy, DiskStep, Apply, Enabled, Invariant;
        DiskStepIsTrue(DiskOf(w, r), DiskOf(next, r), w.db.receipt.value.hash, w.db.receipt.value.bytes);
      }
      assert next.db.receipt == w.db.receipt by { StepIsDiskStep(w, digest, s, Nas); }
      hide TrueCopy, Apply, Enabled, Invariant;
    } else if next.db.receipt.Some? {
      assert w.worker.Publishing? && CallInvariant(w, digest);
      assert next.nas == w.nas && next.backup == w.backup && next.damaged == w.damaged;
      forall r | r !in next.damaged ensures TrueCopy(DiskOf(next, r), next.db.receipt.value.hash, next.db.receipt.value.bytes) {
        assert Safe(w, digest, r, w.worker.bytes);
        StoredIsTrue(DiskOf(w, r), digest(w.worker.bytes), w.worker.bytes);
      }
    }
  }

  lemma {:induction false} RunKeepsTrue(w: World, digest: Bytes -> Digest, steps: seq<Step>)
    requires Invariant(w, digest) && TrueCopies(w) && CanRun(w, digest, steps)
    ensures Invariant(RunSteps(w, digest, steps), digest) && TrueCopies(RunSteps(w, digest, steps))
    decreases |steps|
  {
    if steps != [] {
      StepKeepsInvariant(w, digest, steps[0]);
      StepKeepsTrue(w, digest, steps[0]);
      hide Invariant, TrueCopies, Apply, Enabled;
      RunKeepsTrue(Apply(w, digest, steps[0]), digest, steps[1..]);
    }
  }

  /** On undamaged disks a copy that is present matches its receipt. */
  lemma TrueCopiesMatch(w: World, digest: Bytes -> Digest)
    requires Invariant(w, digest) && TrueCopies(w) && w.db.receipt.Some? && w.damaged == {}
    ensures Matching(w, w.db.receipt.value.hash, digest)
  {
    assert ReceiptInvariant(w, digest);
    assert TrueCopy(DiskOf(w, Nas), w.db.receipt.value.hash, w.db.receipt.value.bytes);
    assert TrueCopy(DiskOf(w, Backup), w.db.receipt.value.hash, w.db.receipt.value.bytes);
    hide Sane, CallInvariant, DeletionInvariant, Safe, Invariant;
  }

  lemma PowerLossEndsPending(d: Disk, torn: map<Inode, Bytes>, hash: Digest)
    ensures !PendingRemoval(AfterPowerLoss(d, torn), hash)
  {}

  /** The operations of a deletion damage no medium and change nothing in the database but the final note. */
  lemma DeletionKeepsRest(w: World, digest: Bytes -> Digest)
    requires DeletionInvariant(w) && (w.worker.Checking? || w.worker.Unlinking? || w.worker.SyncingRemoval?)
    ensures var next := AdvanceWorker(w, digest);
      && next.damaged == w.damaged && next.db == w.db.(filesDeleted := next.db.filesDeleted)
      && (next.worker.Idle? || next.worker.Checking? || next.worker.Unlinking? || next.worker.SyncingRemoval?)
  {}

  lemma {:induction false} AdvancesKeepRest(w: World, digest: Bytes -> Digest, n: nat, v: World)
    requires Invariant(w, digest) && TrueCopies(w) && Advances(w, digest, n, v)
    requires w.worker.Idle? || w.worker.Checking? || w.worker.Unlinking? || w.worker.SyncingRemoval?
    ensures Invariant(v, digest) && TrueCopies(v)
    ensures v.damaged == w.damaged && v.db == w.db.(filesDeleted := v.db.filesDeleted)
    decreases n
  {
    if n > 0 {
      DeletionKeepsRest(w, digest);
      StepKeepsInvariant(w, digest, Advance);
      StepKeepsTrue(w, digest, Advance);
      assert Apply(w, digest, Advance) == AdvanceWorker(w, digest);
      hide Invariant, TrueCopies, AdvanceWorker, Apply;
      AdvancesKeepRest(AdvanceWorker(w, digest), digest, n - 1, v);
    }
  }

  /** On undamaged disks, after any run: a deletion may be cut off after any number of its operations, by a process exit
      or by a power loss that brings unlinked copies back. Either it had finished, or a further call can begin, finds no
      mismatch and ends with both copies gone. They are gone for good exactly when no removal of theirs was pending when
      it began, and after a power loss none ever is. */
  lemma CrashedDeletionCanBeRetried(source: Bytes, digest: Bytes -> Digest, steps: seq<Step>, n: nat, v: World, crash: Step)
    requires CanRun(InitialWorld(source), digest, steps)
    requires var w := RunSteps(InitialWorld(source), digest, steps);
      w.damaged == {} && Enabled(w, BeginDelete) && Advances(Apply(w, digest, BeginDelete), digest, n, v)
    requires crash.ProcessExit? || crash.PowerLoss?
    ensures var u := Apply(v, digest, crash);
      v.db.filesDeleted ||
      (&& Enabled(u, BeginDelete)
       && var hash := u.db.receipt.value.hash;
          var end := AfterDeletion(u, hash, digest);
          && (exists k :: Advances(Apply(u, digest, BeginDelete), digest, k, end))
          && end.db.filesDeleted && Gone(end.nas, hash) && Gone(end.backup, hash)
          && (GoneForGood(end, digest, hash) <==> !PendingRemoval(u.nas, hash) && !PendingRemoval(u.backup, hash))
          && (crash.PowerLoss? ==> GoneForGood(end, digest, hash)))
  {
    InitialInvariant(source, digest);
    RunKeepsTrue(InitialWorld(source), digest, steps);
    var w := RunSteps(InitialWorld(source), digest, steps);
    var begun := Apply(w, digest, BeginDelete);
    StepKeepsInvariant(w, digest, BeginDelete);
    StepKeepsTrue(w, digest, BeginDelete);
    AdvancesKeepRest(begun, digest, n, v);
    if !v.db.filesDeleted {
      assert v.db == w.db && v.damaged == {};
      hide Invariant, TrueCopies;
      RetryAfterCrash(v, digest, crash);
    }
  }

  lemma RetryAfterCrash(v: World, digest: Bytes -> Digest, crash: Step)
    requires Invariant(v, digest) && TrueCopies(v) && v.damaged == {}
    requires v.db.disposed && v.db.receipt.Some? && !v.db.filesDeleted && (crash.ProcessExit? || crash.PowerLoss?)
    ensures var u := Apply(v, digest, crash);
      && Enabled(u, BeginDelete)
      && var hash := u.db.receipt.value.hash;
         var end := AfterDeletion(u, hash, digest);
         && (exists k :: Advances(Apply(u, digest, BeginDelete), digest, k, end))
         && end.db.filesDeleted && Gone(end.nas, hash) && Gone(end.backup, hash)
         && (GoneForGood(end, digest, hash) <==> !PendingRemoval(u.nas, hash) && !PendingRemoval(u.backup, hash))
         && (crash.PowerLoss? ==> GoneForGood(end, digest, hash))
  {
    var u := Apply(v, digest, crash);
    var hash := v.db.receipt.value.hash;
    StepKeepsInvariant(v, digest, crash);
    StepKeepsTrue(v, digest, crash);
    TrueCopiesMatch(u, digest);
    if crash.PowerLoss? {
      PowerLossEndsPending(v.nas, crash.torn, hash);
      PowerLossEndsPending(v.backup, crash.torn, hash);
    }
    hide Invariant, TrueCopies, AfterDeletion, GoneForGood, PendingRemoval, Advances, Matching;
    DeletionIsForGoodIff(u, digest);
    var k := DeletionOutcome(u, digest);
  }
}

/** What holds in every world a run can reach, and what a completed run has therefore proved. */
module AuditSoundness {
  import opened Basics
  import opened AuditModel
  import opened AuditWalk
  import opened AuditSubmission
  import opened AuditCoverage
  import opened AuditAccounts

  ghost predicate NoneUnresolved(db: Database) {
    forall c :: c in db.candidates ==> !db.candidates[c].Unresolved?
  }

  /** Once a run is marked complete its proof still stands, nobody is working on it, and its status says whether any
      candidate stayed unresolved. */
  ghost predicate CompleteIsProved(p: Plan, w: World)
    requires |p.window| > 0
  {
    !w.db.run.status.Running? ==>
      && w.worker.Idle? && ProofComplete(p, w.db)
      && (w.db.run.status.Finished? <==> NoneUnresolved(w.db))
  }

  ghost predicate Invariant(p: Plan, w: World)
    requires |p.window| > 0
  {
    && Walk(p, w.db) && Attentive(p, w) && SubmittedOnce(p, w) && Covered(p, w) && Balanced(p, w.db)
    && CompleteIsProved(p, w)
  }

  lemma InitialInvariant(p: Plan)
    requires Good(p)
    ensures Invariant(p, InitialWorld(p))
  {
    InitialWalk(p);
    InitialOnce(p);
    InitialCovered(p);
    InitialBalanced(p);
    assert InitialWorld(p).db.run.status.Running?;
    hide Walk, SubmittedOnce, Covered, Balanced, InitialWorld, Attentive;
  }

  lemma StepKeepsProof(p: Plan, w: World, s: Step)
    requires |p.window| > 0 && Enabled(p, w, s) && CompleteIsProved(p, w)
    ensures CompleteIsProved(p, Apply(p, w, s))
  {
    if s.VerifyAndComplete? { NobodyCounted(w.db); }
    hide CandidatesOf, WithCandidates, UnresolvedCount, AuditIndexOrder, IndexOf, AuditCheckpointComplete, AfterReceipt;
  }

  lemma NobodyCounted(db: Database)
    ensures UnresolvedCount(db) == 0 <==> NoneUnresolved(db)
  {
    var unresolved := set c | c in db.candidates && db.candidates[c].Unresolved?;
    if unresolved == {} {
      forall c | c in db.candidates ensures !db.candidates[c].Unresolved? { assert c !in unresolved; }
    } else {
      var c :| c in unresolved;
      assert db.candidates[c].Unresolved?;
    }
  }

  lemma StepKeepsInvariant(p: Plan, w: World, s: Step)
    requires Good(p) && Invariant(p, w) && Enabled(p, w, s)
    ensures Invariant(p, Apply(p, w, s))
  {
    assert |p.window| > 0 && PatternsWalk(p, w.db);
    hide Walk, Attentive, SubmittedOnce, Covered, Balanced, CompleteIsProved, Apply, Enabled, Good, PatternsWalk;
    StepKeepsWalk(p, w, s);
    StepKeepsOnce(p, w, s);
    StepKeepsCovered(p, w, s);
    StepKeepsBalanced(p, w, s);
    StepKeepsProof(p, w, s);
  }

  lemma {:induction false} RunKeepsInvariant(p: Plan, w: World, steps: seq<Step>)
    requires Good(p) && Invariant(p, w) && CanRun(p, w, steps)
    ensures Invariant(p, RunSteps(p, w, steps))
    decreases |steps|
  {
    if steps != [] {
      assert Enabled(p, w, steps[0]);
      StepKeepsInvariant(p, w, steps[0]);
      hide Invariant, Apply, Enabled, Good;
      RunKeepsInvariant(p, Apply(p, w, steps[0]), steps[1..]);
    }
  }

  // ----- a run that is expanded -----

  lemma {:induction false} ExpandedTotal(p: Plan, q: Plan, db: Database, more: seq<Item>)
    requires |p.window| > 0 && q.window == p.window
    requires forall i :: i in more ==> PatternTotal(q, db, i) == ZERO
    ensures GrandTotal(q, db, p.items + more) == GrandTotal(p, db, p.items)
  {
    if more == [] {
      assert p.items + more == p.items;
      SameTotals(p, q, db, p.items);
    } else {
      var front, i := more[..|more|-1], more[|more|-1];
      assert p.items + more == (p.items + front) + [i];
      ExpandedTotal(p, q, db, front);
      hide *;
      GrandTotalOneMore(q, db, p.items + front, i);
    }
  }

  lemma GrandTotalOneMore(p: Plan, db: Database, items: seq<Item>, i: Item)
    requires |p.window| > 0 && PatternTotal(p, db, i) == ZERO
    ensures GrandTotal(p, db, items + [i]) == GrandTotal(p, db, items)
  {
    assert (items + [i])[..|items + [i]|-1] == items;
    hide PatternTotal;
  }

  lemma {:induction false} SameTotals(p: Plan, q: Plan, db: Database, items: seq<Item>)
    requires |p.window| > 0 && q.window == p.window
    ensures GrandTotal(q, db, items) == GrandTotal(p, db, items)
  {
    if items != [] { SameTotals(p, q, db, items[..|items|-1]); }
  }

  lemma {:induction false} NothingEarned(db: Database, i: Item, xs: seq<IndexId>)
    requires forall x :: (i, x) !in db.receipts
    ensures SumReceipts(db, i, xs) == ZERO
  {
    if xs != [] { NothingEarned(db, i, xs[..|xs|-1]); }
  }

  lemma ExpansionKeepsWalk(p: Plan, more: seq<Item>, db: Database)
    requires |p.window| > 0 && Walk(p, db)
    ensures Walk(Expanded(p, more), db)
  {
    ExpansionKeepsPatterns(p, more, db);
    ExpansionKeepsFinished(p, more, db);
    hide PatternsWalk, FinishedCounted;
  }

  lemma ExpansionKeepsPattern(p: Plan, more: seq<Item>, db: Database, i: Item)
    requires |p.window| > 0 && i in db.checkpoints && PatternWalk(p, db, i)
    ensures PatternWalk(Expanded(p, more), db, i)
  {
    assert AuditIndexOrder(Expanded(p, more), i.platform) == AuditIndexOrder(p, i.platform);
    hide AuditIndexOrder, IndexOf;
  }

  lemma ExpansionKeepsPatterns(p: Plan, more: seq<Item>, db: Database)
    requires |p.window| > 0 && PatternsWalk(p, db)
    ensures PatternsWalk(Expanded(p, more), db)
  {
    hide PatternWalk;
    forall i | i in db.checkpoints ensures i in Expanded(p, more).items && PatternWalk(Expanded(p, more), db, i) {
      ExpansionKeepsPattern(p, more, db, i);
    }
  }

  lemma ExpansionKeepsFinished(p: Plan, more: seq<Item>, db: Database)
    requires |p.window| > 0 && FinishedCounted(p, db)
    ensures FinishedCounted(Expanded(p, more), db)
  {
    assert FinishedItems(Expanded(p, more), db) == FinishedItems(p, db);
  }

  lemma NewItemsAreNew(p: Plan, more: seq<Item>, i: Item)
    requires Distinct(p.items + more) && i in more
    ensures i !in p.items
  {
    var k :| 0 <= k < |more| && more[k] == i;
    assert (p.items + more)[|p.items| + k] == i;
    forall j | 0 <= j < |p.items| ensures p.items[j] != i {
      assert (p.items + more)[j] == p.items[j];
    }
  }

  lemma NewItemIsUnknown(p: Plan, more: seq<Item>, db: Database, i: Item)
    requires |p.window| > 0 && i !in p.items && PatternsWalk(p, db) && ReceiptsInScope(p, db)
    ensures i !in db.checkpoints && forall x :: (i, x) !in db.receipts
  {
    hide PatternWalk;
  }

  lemma NewPatternTotal(q: Plan, db: Database, i: Item)
    requires |q.window| > 0 && i !in db.checkpoints && forall x :: (i, x) !in db.receipts
    ensures PatternTotal(q, db, i) == ZERO
  {
    assert Live(q, db, i) == ZERO;
    hide SumReceipts, Live;
    NothingEarned(db, i, q.window);
  }

  lemma ExpansionKeepsBalance(p: Plan, more: seq<Item>, db: Database)
    requires Good(Expanded(p, more)) && Walk(p, db) && Balanced(p, db)
    ensures Balanced(Expanded(p, more), db)
  {
    var q := Expanded(p, more);
    forall i | i in more ensures PatternTotal(q, db, i) == ZERO {
      NewItemsAreNew(p, more, i);
      NewItemIsUnknown(p, more, db, i);
      hide *;
      NewPatternTotal(q, db, i);
    }
    hide PatternTotal, Walk, Good;
    ExpandedTotal(p, q, db, more);
  }

  lemma ExpansionKeepsOnce(p: Plan, more: seq<Item>, w: World)
    requires SubmittedOnce(p, w)
    ensures SubmittedOnce(Expanded(p, more), w)
  {
    var q := Expanded(p, more);
    forall e | 0 <= e < |w.aws.log| && e !in w.verdicts ensures Accounted(q, w, e) {
      assert Accounted(p, w, e);
    }
    hide TokensKnown, TokensPrivate, RowsMatchAws, OnlyOneAlive, VerdictsAreDead, WorkerMatchesAws;
  }

  lemma ExpansionKeepsCoverage(p: Plan, more: seq<Item>, w: World)
    requires Covered(p, w)
    ensures Covered(Expanded(p, more), w)
  {
    var q := Expanded(p, more);
    forall i, page {:trigger Found(q, w.db, i, page)} ensures Found(q, w.db, i, page) == Found(p, w.db, i, page) {
      assert CandidatesOf(q, i.platform, page) == CandidatesOf(p, i.platform, page);
    }
    forall i | i in w.db.checkpoints ensures RowCovered(q, w, i) { assert RowCovered(p, w, i); }
    forall i, x | (i, x) in w.db.receipts ensures CompletelyRead(q, w, i, x) { assert CompletelyRead(p, w, i, x); }
  }

  /** A resumed run that takes on new patterns keeps everything already earned: the invariant of the smaller plan
      is an invariant of the larger one, so all guarantees hold for the rest of the run. */
  lemma ExpansionKeepsInvariant(p: Plan, more: seq<Item>, w: World)
    requires Good(p) && Good(Expanded(p, more)) && Invariant(p, w) && w.db.run.status.Running?
    ensures Invariant(Expanded(p, more), w)
  {
    assert |p.window| > 0;
    hide Walk, SubmittedOnce, Covered, Balanced, Good;
    ExpansionKeepsWalk(p, more, w.db);
    ExpansionKeepsOnce(p, more, w);
    ExpansionKeepsCoverage(p, more, w);
    ExpansionKeepsBalance(p, more, w.db);
    assert Attentive(Expanded(p, more), w);
    assert CompleteIsProved(Expanded(p, more), w);
    hide Attentive, CompleteIsProved, Expanded;
  }

  // ----- every reachable world -----

  lemma {:induction false} LifeKeepsInvariant(p: Plan, w: World, calls: seq<Invocation>)
    requires Good(p) && Invariant(p, w) && CanLive(p, w, calls)
    ensures var (q, v) := AfterLife(p, w, calls); Good(q) && Invariant(q, v)
    decreases |calls|
  {
    if calls != [] {
      var q := Expanded(p, calls[0].more);
      ExpansionKeepsInvariant(p, calls[0].more, w);
      RunKeepsInvariant(q, w, calls[0].steps);
      hide Invariant, Good, Expanded, RunSteps, CanRun;
      LifeKeepsInvariant(q, RunSteps(q, w, calls[0].steps), calls[1..]);
    }
  }

  lemma ReachableInvariant(p: Plan, w: World)
    requires Reachable(p, w)
    ensures Good(p) && Invariant(p, w)
  {
    var first, calls :|
      Good(first) && CanLive(first, InitialWorld(first), calls) && AfterLife(first, InitialWorld(first), calls) == (p, w);
    InitialInvariant(first);
    hide Invariant, InitialWorld, CanLive, AfterLife, Good;
    LifeKeepsInvariant(first, InitialWorld(first), calls);
  }

  // ----- crash-safe coverage -----

  /** Under any interleaving of quanta, failures, query restarts, source switches and crashes: a receipt means a
      complete read of that index whose every slug is a durable candidate, and a checkpoint at direct-API page
      `page` or result token `nextToken` means that everything before that cursor is durable already. */
  lemma CoverageIsCrashSafe(p: Plan, w: World, i: Item)
    requires Reachable(p, w)
    ensures forall x :: (i, x) in w.db.receipts ==> CompletelyRead(p, w, i, x)
    ensures i in w.db.checkpoints ==>
      var cp := w.db.checkpoints[i];
      && PagesFound(p, w.db, i, p.source.cdx(i, cp.indexId), cp.page)
      && (cp.execution.Some? ==>
            PagesFound(p, w.db, i, p.source.results(cp.execution.value),
                       if cp.resultsComplete then |p.source.results(cp.execution.value)| else Cursor(cp)))
  {
    ReachableInvariant(p, w);
    assert RowsCovered(p, w) && ReceiptsCovered(p, w);
    if i in w.db.checkpoints { assert RowCovered(p, w, i); }
  }

  // ----- completion -----

  function Product(items: seq<Item>, window: seq<IndexId>): set<(Item, IndexId)> {
    set i, x | i in items && x in window :: (i, x)
  }

  lemma RowSize(i: Item, window: set<IndexId>)
    ensures |set x | x in window :: (i, x)| == |window|
    decreases |window|
  {
    var row := set x | x in window :: (i, x);
    if window == {} {
      assert row == {};
    } else {
      var x :| x in window;
      var rest := window - {x};
      RowSize(i, rest);
      assert row == (set y | y in rest :: (i, y)) + {(i, x)};
    }
  }

  lemma {:induction false} ProductSize(items: seq<Item>, window: seq<IndexId>)
    requires Distinct(items) && Distinct(window)
    ensures |Product(items, window)| == |items| * |window|
  {
    if items == [] {
      assert Product(items, window) == {};
    } else {
      var front, last := items[..|items|-1], items[|items|-1];
      assert items == front + [last];
      assert Distinct(front) && last !in front;
      ProductSize(front, window);
      ProductGrows(front, last, window);
      OneMoreTimes(|front|, |window|);
    }
  }

  lemma OneMoreTimes(n: nat, m: nat)
    ensures (n + 1) * m == n * m + m
  {}

  lemma ProductGrows(front: seq<Item>, last: Item, window: seq<IndexId>)
    requires Distinct(window) && last !in front
    ensures |Product(front + [last], window)| == |Product(front, window)| + |window|
  {
    SetOfDistinct(window);
    var names := set x | x in window;
    var row := set x | x in names :: (last, x);
    RowSize(last, names);
    assert Product(front + [last], window) == Product(front, window) + row;
    assert Product(front, window) !! row;
  }

  lemma SubsetOfEqualSize<T>(a: set<T>, b: set<T>)
    requires a <= b && |a| == |b|
    ensures a == b
  {
    assert b == a + (b - a);
  }

  /** The count of receipts can reach patterns times indexes only by being every one of them. */
  lemma CountProvesProduct(p: Plan, w: World)
    requires Good(p) && Walk(p, w.db) && |w.db.receipts| == |p.items| * |p.window|
    ensures w.db.receipts.Keys == Product(p.items, p.window)
  {
    ProductSize(p.items, p.window);
    assert PatternsWalk(p, w.db) && ReceiptsInScope(p, w.db);
    forall key | key in w.db.receipts.Keys ensures key in Product(p.items, p.window) {
      assert (key.0, key.1) in w.db.receipts;
    }
    assert |w.db.receipts.Keys| == |w.db.receipts|;
    SubsetOfEqualSize(w.db.receipts.Keys, Product(p.items, p.window));
  }

  /** Whenever a run is marked complete: its receipts are exactly its patterns times its window, every one of those
      was completely read, every candidate is in a terminal state or catalogued, and so every slug on every page
      of those reads has been dealt with. It is called complete exactly when no candidate stayed unresolved. */
  lemma CompletionIsSound(p: Plan, w: World)
    requires Reachable(p, w) && !w.db.run.status.Running?
    ensures w.db.receipts.Keys == Product(p.items, p.window)
    ensures forall i, x :: i in p.items && x in p.window ==> CompletelyRead(p, w, i, x)
    ensures forall c :: c in w.db.candidates ==> !w.db.candidates[c].Open()
    ensures forall i :: i in p.items ==> i in w.db.checkpoints && AuditCheckpointComplete(p, i.platform, w.db.checkpoints[i])
    ensures w.db.run.completedPatterns == |p.items|
    ensures w.db.run.status.Finished? <==> forall c :: c in w.db.candidates ==> !w.db.candidates[c].Unresolved?
  {
    ReachableInvariant(p, w);
    CountProvesProduct(p, w);
    forall i, x | i in p.items && x in p.window ensures CompletelyRead(p, w, i, x) {
      assert (i, x) in Product(p.items, p.window);
      CoverageIsCrashSafe(p, w, i);
    }
    EveryPatternFinished(p, w);
  }

  lemma EveryPatternFinished(p: Plan, w: World)
    requires Good(p) && Walk(p, w.db) && w.db.receipts.Keys == Product(p.items, p.window)
    ensures forall i :: i in p.items ==> i in w.db.checkpoints && AuditCheckpointComplete(p, i.platform, w.db.checkpoints[i])
    ensures w.db.run.completedPatterns == |p.items|
  {
    assert PatternsWalk(p, w.db) && ReceiptsInScope(p, w.db) && FinishedCounted(p, w.db);
    forall i | i in p.items
      ensures i in w.db.checkpoints && AuditCheckpointComplete(p, i.platform, w.db.checkpoints[i])
      ensures CompletedThroughTarget(p, w.db.checkpoints[i])
    {
      forall x | x in p.window ensures (i, x) in w.db.receipts {
        assert (i, x) in Product(p.items, p.window);
      }
      assert (i, p.window[0]) in w.db.receipts;
      MarkerMeansAllReceipts(p, w.db, i);
    }
    assert FinishedItems(p, w.db) == set i | i in p.items;
    SetOfDistinct(p.items);
  }

  // ----- the other whole-run guarantees -----

  /** Paid executions of one pattern and index never outnumber the verified dead ones by more than one, and a
      stored execution id is the one AWS holds for the stored token. */
  lemma SubmitOnce(p: Plan, w: World, i: Item, x: IndexId)
    requires Reachable(p, w)
    ensures |Paid(w, i, x)| <= 1 + |Paid(w, i, x) * w.verdicts|
    ensures forall e :: e in Paid(w, i, x) * w.verdicts ==> w.aws.log[e].status.Doomed?
    ensures i in w.db.checkpoints && w.db.checkpoints[i].execution.Some? ==>
      var cp := w.db.checkpoints[i];
      cp.token.Some? && cp.token.value in w.aws.holds && w.aws.holds[cp.token.value] == cp.execution.value
  {
    ReachableInvariant(p, w);
    hide Walk, Attentive, Covered, Balanced;
    PaidExecutionsAreBounded(p, w, i, x);
    if i in w.db.checkpoints && w.db.checkpoints[i].execution.Some? { StoredExecutionIsAwsOwn(p, w, i); }
  }

  /** The counters shown for a run are the sum of its receipts and of what unfinished patterns have read, and the
      number of queued candidates is the number of candidate rows. */
  lemma CountersAreConserved(p: Plan, w: World)
    requires Reachable(p, w)
    ensures w.db.run.read == GrandTotal(p, w.db, p.items)
    ensures w.db.run.read.queued == |w.db.candidates|
    ensures w.db.run.completedPatterns == |FinishedItems(p, w.db)|
  {
    ReachableInvariant(p, w);
  }
}

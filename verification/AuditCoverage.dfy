/** Crash-safe coverage: what a receipt or a cursor proves about the candidates already durable. */
module AuditCoverage {
  import opened Basics
  import opened AuditModel
  import opened AuditWalk
  import opened AuditSubmission

  /** Every slug that can be extracted from `page` is in the candidate table. */
  ghost predicate Found(p: Plan, db: Database, i: Item, page: Page) {
    CandidatesOf(p, i.platform, page) <= db.candidates.Keys
  }

  /** The direct API is read page by page until the first empty one. */
  function FirstEmpty(pages: seq<Page>): (n: nat)
    ensures n <= |pages|
    ensures n < |pages| ==> pages[n] == []
    ensures forall q :: 0 <= q < n ==> pages[q] != []
  {
    if pages == [] || pages[0] == [] then 0 else 1 + FirstEmpty(pages[1..])
  }

  ghost predicate PagesFound(p: Plan, db: Database, i: Item, pages: seq<Page>, n: nat) {
    forall q :: 0 <= q < n && q < |pages| ==> Found(p, db, i, pages[q])
  }

  /** Everything before either cursor of the row is durable. */
  ghost predicate RowCovered(p: Plan, w: World, i: Item)
    requires i in w.db.checkpoints
  {
    var cp := w.db.checkpoints[i];
    var cdx := p.source.cdx(i, cp.indexId);
    && cp.page <= FirstEmpty(cdx)
    && PagesFound(p, w.db, i, cdx, cp.page)
    && (cp.resultsComplete || cp.nextToken.Some? ==> cp.execution.Some?)
    && (cp.execution.Some? ==>
          var results := p.source.results(cp.execution.value);
          && Cursor(cp) < |results|
          && PagesFound(p, w.db, i, results, if cp.resultsComplete then |results| else Cursor(cp)))
  }

  /** Every result page of execution `e` is durable. */
  ghost predicate ResultsFound(p: Plan, db: Database, i: Item, e: Execution) {
    PagesFound(p, db, i, p.source.results(e), |p.source.results(e)|)
  }

  /** A complete read of index `x`: the direct API up to its first empty page, or every result page of one
      query asked for exactly this pattern and index and not given up. */
  ghost predicate CompletelyRead(p: Plan, w: World, i: Item, x: IndexId) {
    var cdx := p.source.cdx(i, x);
    || PagesFound(p, w.db, i, cdx, FirstEmpty(cdx))
    || (exists e :: e in Paid(w, i, x) - w.verdicts && ResultsFound(p, w.db, i, e))
  }

  ghost predicate RowsCovered(p: Plan, w: World) {
    forall i :: i in w.db.checkpoints ==> RowCovered(p, w, i)
  }

  ghost predicate ReceiptsCovered(p: Plan, w: World) {
    forall i, x :: (i, x) in w.db.receipts ==> CompletelyRead(p, w, i, x)
  }

  /** The page in the worker's memory is the one its cursor points at. */
  ghost predicate PageIsAtCursor(p: Plan, w: World) {
    w.worker.Fetched? ==>
      var seen := w.worker.seen;
      if !w.worker.viaAthena then
        w.worker.page == CdxPage(p, w.worker.item, seen.indexId, seen.page) && w.worker.next.None?
      else if seen.resultsComplete then
        w.worker.page == [] && w.worker.next.None?
      else
        && seen.execution.Some? && Cursor(seen) < |p.source.results(seen.execution.value)|
        && w.worker.page == p.source.results(seen.execution.value)[Cursor(seen)]
        && w.worker.next == NextResultToken(p, seen.execution.value, Cursor(seen))
  }

  ghost predicate Covered(p: Plan, w: World) {
    RowsCovered(p, w) && ReceiptsCovered(p, w) && PageIsAtCursor(p, w)
  }

  // ----- growth of the candidate table -----

  lemma FoundStays(p: Plan, db: Database, next: Database, i: Item, pages: seq<Page>, n: nat)
    requires db.candidates.Keys <= next.candidates.Keys && PagesFound(p, db, i, pages, n)
    ensures PagesFound(p, next, i, pages, n)
  {
    forall q | 0 <= q < n && q < |pages| ensures Found(p, next, i, pages[q]) {
      assert Found(p, db, i, pages[q]);
    }
  }

  ghost predicate SameCursors(db: Database, next: Database, i: Item) {
    && i in db.checkpoints && i in next.checkpoints
    && var a, b := db.checkpoints[i], next.checkpoints[i];
       && a.indexId == b.indexId && a.page == b.page && a.execution == b.execution
       && a.nextToken == b.nextToken && a.resultsComplete == b.resultsComplete
  }

  lemma RowStaysCovered(p: Plan, w: World, next: World, i: Item)
    requires w.db.candidates.Keys <= next.db.candidates.Keys && SameCursors(w.db, next.db, i) && RowCovered(p, w, i)
    ensures RowCovered(p, next, i)
  {
    var cp := w.db.checkpoints[i];
    FoundStays(p, w.db, next.db, i, p.source.cdx(i, cp.indexId), cp.page);
    if cp.execution.Some? {
      var results := p.source.results(cp.execution.value);
      FoundStays(p, w.db, next.db, i, results, if cp.resultsComplete then |results| else Cursor(cp));
    }
  }

  /** AWS only ever learns of more queries. */
  ghost predicate LogGrows(aws: Aws, next: Aws) {
    && |aws.log| <= |next.log|
    && forall e :: 0 <= e < |aws.log| ==> next.log[e].item == aws.log[e].item && next.log[e].indexId == aws.log[e].indexId
  }

  lemma ReadStaysComplete(p: Plan, w: World, next: World, i: Item, x: IndexId)
    requires w.db.candidates.Keys <= next.db.candidates.Keys && LogGrows(w.aws, next.aws) && CompletelyRead(p, w, i, x)
    requires Paid(w, i, x) * next.verdicts <= w.verdicts
    ensures CompletelyRead(p, next, i, x)
  {
    var cdx := p.source.cdx(i, x);
    if PagesFound(p, w.db, i, cdx, FirstEmpty(cdx)) {
      FoundStays(p, w.db, next.db, i, cdx, FirstEmpty(cdx));
    } else {
      var e :| e in Paid(w, i, x) - w.verdicts && ResultsFound(p, w.db, i, e);
      FoundStays(p, w.db, next.db, i, p.source.results(e), |p.source.results(e)|);
      assert e in Paid(next, i, x) - next.verdicts && ResultsFound(p, next.db, i, e);
    }
  }

  lemma StepGrows(p: Plan, w: World, s: Step)
    requires |p.window| > 0 && Enabled(p, w, s)
    ensures w.db.candidates.Keys <= Apply(p, w, s).db.candidates.Keys
    ensures LogGrows(w.aws, Apply(p, w, s).aws)
  {
    hide CandidatesOf, UnresolvedCount, AuditIndexOrder, IndexOf, ProofComplete, AuditCheckpointComplete, AfterReceipt;
  }

  // ----- rows -----

  lemma EmptyRowCovered(p: Plan, w: World, i: Item)
    requires i in w.db.checkpoints
    requires var cp := w.db.checkpoints[i];
      cp.page == 0 && cp.execution.None? && cp.nextToken.None? && !cp.resultsComplete
    ensures RowCovered(p, w, i)
  {}

  lemma CdxPageCovered(p: Plan, w: World, next: World, i: Item)
    requires i in w.db.checkpoints && i in next.db.checkpoints && RowCovered(p, w, i)
    requires w.db.candidates.Keys <= next.db.candidates.Keys
    requires var cp := w.db.checkpoints[i];
      var page := CdxPage(p, i, cp.indexId, cp.page);
      page != [] && Found(p, next.db, i, page)
    requires var a, b := w.db.checkpoints[i], next.db.checkpoints[i];
      && b.page == a.page + 1 && b.indexId == a.indexId && b.execution == a.execution
      && b.nextToken == a.nextToken && b.resultsComplete == a.resultsComplete
    ensures RowCovered(p, next, i)
  {
    var cp := w.db.checkpoints[i];
    FoundStays(p, w.db, next.db, i, p.source.cdx(i, cp.indexId), cp.page);
    if cp.execution.Some? {
      var results := p.source.results(cp.execution.value);
      FoundStays(p, w.db, next.db, i, results, if cp.resultsComplete then |results| else Cursor(cp));
    }
  }

  lemma ResultPageCovered(p: Plan, w: World, next: World, i: Item)
    requires i in w.db.checkpoints && i in next.db.checkpoints && RowCovered(p, w, i)
    requires w.db.candidates.Keys <= next.db.candidates.Keys
    requires var cp := w.db.checkpoints[i];
      && cp.execution.Some? && !cp.resultsComplete && Cursor(cp) < |p.source.results(cp.execution.value)|
      && Found(p, next.db, i, p.source.results(cp.execution.value)[Cursor(cp)])
    requires var a, b := w.db.checkpoints[i], next.db.checkpoints[i];
      && b.page == a.page && b.indexId == a.indexId && b.execution == a.execution
      && b.nextToken == NextResultToken(p, a.execution.value, Cursor(a)) && b.resultsComplete == b.nextToken.None?
    ensures RowCovered(p, next, i)
  {
    var cp := w.db.checkpoints[i];
    var results := p.source.results(cp.execution.value);
    FoundStays(p, w.db, next.db, i, p.source.cdx(i, cp.indexId), cp.page);
    FoundStays(p, w.db, next.db, i, results, Cursor(cp));
  }

  lemma CommitEffect(p: Plan, w: World, now: int)
    requires |p.window| > 0 && Enabled(p, w, CommitPage(now)) && Attentive(p, w)
    ensures var next, i := Apply(p, w, CommitPage(now)), w.worker.item;
      && Found(p, next.db, i, w.worker.page)
      && next.db.receipts == w.db.receipts && next.aws == w.aws && next.worker.Idle?
      && next.db.checkpoints.Keys == w.db.checkpoints.Keys
      && (forall j :: j in w.db.checkpoints && j != i ==> next.db.checkpoints[j] == w.db.checkpoints[j])
      && (var a, b := w.db.checkpoints[i], next.db.checkpoints[i];
          && b.indexId == a.indexId && b.execution == a.execution
          && (if w.worker.viaAthena
              then b.page == a.page && b.nextToken == w.worker.next && b.resultsComplete == w.worker.next.None?
              else b.page == a.page + 1 && b.nextToken == a.nextToken && b.resultsComplete == a.resultsComplete))
  {
    hide CandidatesOf;
  }

  lemma CommitKeepsRows(p: Plan, w: World, now: int)
    requires |p.window| > 0 && Enabled(p, w, CommitPage(now)) && Attentive(p, w) && RowsCovered(p, w) && PageIsAtCursor(p, w)
    ensures RowsCovered(p, Apply(p, w, CommitPage(now)))
  {
    var next, i := Apply(p, w, CommitPage(now)), w.worker.item;
    CommitEffect(p, w, now);
    StepGrows(p, w, CommitPage(now));
    assert RowCovered(p, w, i);
    assert !Exhausts(w.worker.page, w.worker.next, w.worker.viaAthena);
    hide Apply, Enabled, RowCovered, CandidatesOf, Found;
    if w.worker.viaAthena { ResultPageCovered(p, w, next, i); } else { CdxPageCovered(p, w, next, i); }
    forall j | j in next.db.checkpoints ensures RowCovered(p, next, j) {
      if j != i { RowStaysCovered(p, w, next, j); }
    }
  }

  lemma ReceiptRowsEffect(p: Plan, w: World, now: int)
    requires |p.window| > 0 && Enabled(p, w, EarnReceipt(now)) && Attentive(p, w)
    ensures var next, i := Apply(p, w, EarnReceipt(now)), w.worker.item;
      && next.aws == w.aws && next.verdicts == w.verdicts && next.worker.Idle? && next.db.candidates == w.db.candidates
      && next.db.checkpoints.Keys == w.db.checkpoints.Keys
      && next.db.receipts.Keys == w.db.receipts.Keys + {(i, w.worker.seen.indexId)}
      && (forall j :: j in w.db.checkpoints && j != i ==> next.db.checkpoints[j] == w.db.checkpoints[j])
      && (|| SameCursors(w.db, next.db, i)
          || (var b := next.db.checkpoints[i];
              b.page == 0 && b.execution.None? && b.nextToken.None? && !b.resultsComplete))
  {
    hide AuditIndexOrder, IndexOf;
  }

  lemma ReceiptKeepsRows(p: Plan, w: World, now: int)
    requires |p.window| > 0 && Enabled(p, w, EarnReceipt(now)) && Attentive(p, w) && RowsCovered(p, w)
    ensures RowsCovered(p, Apply(p, w, EarnReceipt(now)))
  {
    var next, i := Apply(p, w, EarnReceipt(now)), w.worker.item;
    ReceiptRowsEffect(p, w, now);
    hide Apply, Enabled, RowCovered;
    forall j | j in next.db.checkpoints ensures RowCovered(p, next, j) {
      if j == i && !SameCursors(w.db, next.db, i) { EmptyRowCovered(p, next, i); }
      else { RowStaysCovered(p, w, next, j); }
    }
  }

  /** The page that ends an index ends a complete read of it. */
  lemma ExhaustionIsComplete(p: Plan, w: World)
    requires |p.window| > 0 && w.worker.Fetched? && w.worker.item in w.db.checkpoints && Attentive(p, w)
    requires Exhausts(w.worker.page, w.worker.next, w.worker.viaAthena) && PageIsAtCursor(p, w)
    requires RowCovered(p, w, w.worker.item) && RowMatchesAws(w, w.worker.item)
    ensures CompletelyRead(p, w, w.worker.item, w.worker.seen.indexId)
  {
    var i, cp := w.worker.item, w.worker.seen;
    if w.worker.viaAthena {
      var e := cp.execution.value;
      var results := p.source.results(e);
      assert e in Paid(w, i, cp.indexId);
      forall q | 0 <= q < |results| ensures Found(p, w.db, i, results[q]) {
        if !cp.resultsComplete && q == Cursor(cp) { assert CandidatesOf(p, i.platform, []) == {}; }
      }
      assert e in Paid(w, i, cp.indexId) - w.verdicts && ResultsFound(p, w.db, i, e);
    }
  }

  lemma OnlyFailuresGiveUp(p: Plan, w: World, s: Step)
    requires |p.window| > 0 && Enabled(p, w, s) && Attentive(p, w)
    ensures var next := Apply(p, w, s);
      || next.verdicts == w.verdicts
      || (&& !w.worker.Idle? && w.worker.item in w.db.checkpoints && !CompletedThroughTarget(p, w.db.checkpoints[w.worker.item])
          && w.db.checkpoints[w.worker.item].execution.Some?
          && next.verdicts == w.verdicts + {w.db.checkpoints[w.worker.item].execution.value})
  {
    hide CandidatesOf, WithCandidates, UnresolvedCount, AuditIndexOrder, IndexOf, ProofComplete, AuditCheckpointComplete,
         AfterReceipt;
  }

  lemma AskedForItsOwnIndex(w: World, j: Item, i: Item, x: IndexId)
    requires j in w.db.checkpoints && w.db.checkpoints[j].execution.Some? && RowMatchesAws(w, j)
    requires (j, w.db.checkpoints[j].indexId) !in w.db.receipts && (i, x) in w.db.receipts
    ensures w.db.checkpoints[j].execution.value !in Paid(w, i, x)
  {}

  lemma WalkHasPattern(p: Plan, db: Database, i: Item)
    requires |p.window| > 0 && Walk(p, db) && i in db.checkpoints
    ensures PatternWalk(p, db, i)
  {
    hide PatternWalk;
  }

  /** A query is given up only while its index has no receipt yet. */
  lemma ReceiptsOutliveVerdicts(p: Plan, w: World, s: Step, i: Item, x: IndexId)
    requires |p.window| > 0 && Enabled(p, w, s) && Attentive(p, w) && Walk(p, w.db) && RowsMatchAws(w)
    requires (i, x) in w.db.receipts
    ensures Paid(w, i, x) * Apply(p, w, s).verdicts <= w.verdicts
  {
    hide Enabled, Apply, Attentive, Walk, PatternWalk, RowMatchesAws, CompletedThroughTarget, Paid;
    OnlyFailuresGiveUp(p, w, s);
    if Apply(p, w, s).verdicts != w.verdicts {
      var j := w.worker.item;
      WalkHasPattern(p, w.db, j);
      UnfinishedHasNoReceipt(p, w.db, j);
      AskedForItsOwnIndex(w, j, i, x);
    }
  }

  lemma UnfinishedHasNoReceipt(p: Plan, db: Database, i: Item)
    requires |p.window| > 0 && i in db.checkpoints && PatternWalk(p, db, i) && !CompletedThroughTarget(p, db.checkpoints[i])
    ensures (i, db.checkpoints[i].indexId) !in db.receipts
  {
    var order := AuditIndexOrder(p, i.platform);
    assert (i, order[IndexOf(order, db.checkpoints[i].indexId)]) !in db.receipts;
  }

  lemma ReceiptIsCovered(p: Plan, w: World, now: int)
    requires |p.window| > 0 && Enabled(p, w, EarnReceipt(now)) && Attentive(p, w) && Covered(p, w) && RowsMatchAws(w)
    ensures ReceiptsCovered(p, Apply(p, w, EarnReceipt(now)))
  {
    var next, i := Apply(p, w, EarnReceipt(now)), w.worker.item;
    var here := w.worker.seen.indexId;
    ReceiptRowsEffect(p, w, now);
    assert RowCovered(p, w, i) && RowMatchesAws(w, i);
    assert Exhausts(w.worker.page, w.worker.next, w.worker.viaAthena);
    hide Apply, Enabled, RowCovered, RowMatchesAws, CompletelyRead;
    ExhaustionIsComplete(p, w);
    forall j, x | (j, x) in next.db.receipts ensures CompletelyRead(p, next, j, x) {
      assert (j, x) in w.db.receipts || (j, x) == (i, here);
      ReadStaysComplete(p, w, next, j, x);
    }
  }

  // ----- the other steps -----

  ghost predicate MovesCursor(s: Step) {
    s.Load? || s.SaveExecution? || s.RecordFailure? || s.CommitPage? || s.EarnReceipt?
  }

  lemma StillStepEffect(p: Plan, w: World, s: Step)
    requires |p.window| > 0 && Enabled(p, w, s) && !MovesCursor(s)
    ensures var next := Apply(p, w, s);
      && next.db.receipts == w.db.receipts && next.db.checkpoints.Keys == w.db.checkpoints.Keys
      && (forall j :: j in w.db.checkpoints ==> SameCursors(w.db, next.db, j))
  {
    hide CandidatesOf, WithCandidates, UnresolvedCount, AuditIndexOrder, IndexOf, ProofComplete, AuditCheckpointComplete;
  }

  /** Load, a saved execution id and a recorded failure leave each row's cursors, or clear what they must. */
  lemma RowStepEffect(p: Plan, w: World, s: Step)
    requires |p.window| > 0 && Enabled(p, w, s) && Attentive(p, w) && WorkerMatchesAws(w)
    requires s.Load? || s.SaveExecution? || s.RecordFailure?
    ensures var next := Apply(p, w, s);
      && next.db.receipts == w.db.receipts && next.db.candidates == w.db.candidates && next.aws == w.aws
      && w.db.checkpoints.Keys <= next.db.checkpoints.Keys
      && forall j :: j in next.db.checkpoints ==>
          || SameCursors(w.db, next.db, j)
          || (var b := next.db.checkpoints[j];
              && b.nextToken.None? && !b.resultsComplete
              && (if j in w.db.checkpoints
                  then b.page == w.db.checkpoints[j].page && b.indexId == w.db.checkpoints[j].indexId
                  else b.page == 0 && b.execution.None?))
  {
    hide AuditIndexOrder, AuditCheckpointComplete;
  }

  lemma ClearedRowCovered(p: Plan, w: World, next: World, j: Item)
    requires Good(p) && j in next.db.checkpoints && next.db.candidates == w.db.candidates
    requires var b := next.db.checkpoints[j];
      && b.nextToken.None? && !b.resultsComplete
      && (if j in w.db.checkpoints
          then RowCovered(p, w, j) && b.page == w.db.checkpoints[j].page && b.indexId == w.db.checkpoints[j].indexId
          else b.page == 0 && b.execution.None?)
    ensures RowCovered(p, next, j)
  {
    if j in w.db.checkpoints {
      var cp := w.db.checkpoints[j];
      FoundStays(p, w.db, next.db, j, p.source.cdx(j, cp.indexId), cp.page);
    }
  }

  lemma RowStepKeepsRows(p: Plan, w: World, s: Step)
    requires Good(p) && Enabled(p, w, s) && Attentive(p, w) && WorkerMatchesAws(w) && RowsCovered(p, w)
    requires s.Load? || s.SaveExecution? || s.RecordFailure?
    ensures RowsCovered(p, Apply(p, w, s))
  {
    RowStepEffect(p, w, s);
    var next := Apply(p, w, s);
    hide Apply, Enabled, RowCovered, Attentive, WorkerMatchesAws, Good;
    forall j | j in next.db.checkpoints ensures RowCovered(p, next, j) {
      if SameCursors(w.db, next.db, j) { RowStaysCovered(p, w, next, j); }
      else { ClearedRowCovered(p, w, next, j); }
    }
  }

  lemma StillStepKeepsRows(p: Plan, w: World, s: Step)
    requires |p.window| > 0 && Enabled(p, w, s) && !MovesCursor(s) && RowsCovered(p, w)
    ensures RowsCovered(p, Apply(p, w, s))
  {
    StillStepEffect(p, w, s);
    StepGrows(p, w, s);
    var next := Apply(p, w, s);
    hide Apply, Enabled, RowCovered, SameCursors;
    forall j | j in next.db.checkpoints ensures RowCovered(p, next, j) {
      RowStaysCovered(p, w, next, j);
    }
  }

  lemma StepKeepsRows(p: Plan, w: World, s: Step)
    requires Good(p) && Enabled(p, w, s) && Attentive(p, w) && WorkerMatchesAws(w) && Covered(p, w)
    ensures RowsCovered(p, Apply(p, w, s))
  {
    hide Apply, Enabled, RowsCovered, Attentive, WorkerMatchesAws, PageIsAtCursor, ReceiptsCovered;
    if s.CommitPage? { CommitKeepsRows(p, w, s.now); }
    else if s.EarnReceipt? { ReceiptKeepsRows(p, w, s.now); }
    else if s.Load? || s.SaveExecution? || s.RecordFailure? { RowStepKeepsRows(p, w, s); }
    else { StillStepKeepsRows(p, w, s); }
  }

  lemma StepKeepsReceiptsCovered(p: Plan, w: World, s: Step)
    requires |p.window| > 0 && Enabled(p, w, s) && Attentive(p, w) && WorkerMatchesAws(w) && Covered(p, w) && RowsMatchAws(w)
    requires Walk(p, w.db)
    ensures ReceiptsCovered(p, Apply(p, w, s))
  {
    if s.EarnReceipt? {
      ReceiptIsCovered(p, w, s.now);
    } else {
      if s.CommitPage? { CommitEffect(p, w, s.now); }
      else if s.Load? || s.SaveExecution? || s.RecordFailure? { RowStepEffect(p, w, s); }
      else { StillStepEffect(p, w, s); }
      StepGrows(p, w, s);
      var next := Apply(p, w, s);
      assert next.db.receipts == w.db.receipts;
      assert w.db.candidates.Keys <= next.db.candidates.Keys && LogGrows(w.aws, next.aws);
      hide Apply, Enabled, CompletelyRead, Attentive, WorkerMatchesAws, RowsCovered, PageIsAtCursor, RowsMatchAws, LogGrows, SameCursors, Walk;
      forall i, x | (i, x) in next.db.receipts ensures CompletelyRead(p, next, i, x) {
        ReceiptsOutliveVerdicts(p, w, s, i, x);
        ReadStaysComplete(p, w, next, i, x);
      }
    }
  }

  lemma StepKeepsPage(p: Plan, w: World, s: Step)
    requires |p.window| > 0 && Enabled(p, w, s) && PageIsAtCursor(p, w)
    ensures PageIsAtCursor(p, Apply(p, w, s))
  {
    hide CandidatesOf, WithCandidates, UnresolvedCount, AuditIndexOrder, IndexOf, ProofComplete, AuditCheckpointComplete,
         AfterReceipt;
  }

  lemma InitialCovered(p: Plan)
    requires |p.window| > 0
    ensures Covered(p, InitialWorld(p))
  {}

  lemma StepKeepsCovered(p: Plan, w: World, s: Step)
    requires Good(p) && Enabled(p, w, s) && Walk(p, w.db) && Attentive(p, w) && SubmittedOnce(p, w) && Covered(p, w)
    ensures Covered(p, Apply(p, w, s))
  {
    assert |p.window| > 0 && RowsMatchAws(w) && WorkerMatchesAws(w);
    StepKeepsPage(p, w, s);
    hide Apply, Enabled, Attentive, Good, SubmittedOnce, PageIsAtCursor, RowsMatchAws, WorkerMatchesAws, RowsCovered, ReceiptsCovered, Walk;
    StepKeepsRows(p, w, s);
    StepKeepsReceiptsCovered(p, w, s);
  }
}

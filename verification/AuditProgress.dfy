/**
 * Progress of a quantum: what an advance uses up, what a failure leaves alone, and why a queue of quanta over
 * finite sources comes to an end.
 */
module AuditProgress {
  import opened Basics
  import opened RetryPolicy
  import opened CooperativeScheduler
  import opened AuditModel
  import opened AuditWalk
  import opened AuditSubmission
  import opened AuditCoverage
  import opened AuditSoundness
  import opened AuditQuantum

  // ----- what is left to do for a row -----

  function IndicesLeft(p: Plan, item: Item, row: Checkpoint): nat
    requires |p.window| > 0
  {
    if CompletedThroughTarget(p, row) then 0 else |p.window| - IndexOf(AuditIndexOrder(p, item.platform), row.indexId)
  }

  function Monus(a: int, b: int): nat {
    if a < b then 0 else a - b
  }

  function ResultPagesLeft(p: Plan, row: Checkpoint): nat {
    if row.execution.None? || row.resultsComplete then 0
    else Monus(|p.source.results(row.execution.value)|, Cursor(row))
  }

  function PagesLeft(p: Plan, item: Item, row: Checkpoint): nat {
    Monus(FirstEmpty(p.source.cdx(item, row.indexId)), row.page) + ResultPagesLeft(p, row)
  }

  function Unsubmitted(row: Checkpoint): nat {
    if row.execution.None? then 1 else 0
  }

  /** Lexicographically less: indexes left, then a query still to be submitted, then source pages left. */
  predicate LessLeft(p: Plan, item: Item, after: Checkpoint, before: Checkpoint)
    requires |p.window| > 0
  {
    || IndicesLeft(p, item, after) < IndicesLeft(p, item, before)
    || (&& IndicesLeft(p, item, after) == IndicesLeft(p, item, before)
        && (|| Unsubmitted(after) < Unsubmitted(before)
            || (Unsubmitted(after) == Unsubmitted(before) && PagesLeft(p, item, after) < PagesLeft(p, item, before))))
  }

  /** The facts about one row that the invariant gives. */
  ghost predicate GoodRow(p: Plan, w: World, item: Item, row: Checkpoint)
    requires |p.window| > 0
  {
    var order := AuditIndexOrder(p, item.platform);
    && row.indexId in order && !CompletedThroughTarget(p, row)
    && row.page <= FirstEmpty(p.source.cdx(item, row.indexId))
    && (row.resultsComplete || row.nextToken.Some? ==> row.execution.Some?)
    && (row.execution.Some? ==>
          row.execution.value < |w.aws.log| && Cursor(row) < |p.source.results(row.execution.value)|)
    && (Behind(w.aws, row.token).Some? ==> Behind(w.aws, row.token).value < |w.aws.log|)
    && (row.token.Some? ==> row.token.value < w.minted)
    && (forall t :: t in w.aws.holds ==> t < w.minted)
  }

  lemma RowIsGood(p: Plan, w: World, item: Item, now: int)
    requires Good(p) && Invariant(p, w) && Contacting(p, w, item, now)
    ensures GoodRow(p, w, item, Row(p, w.db, item))
  {
    assert PatternsWalk(p, w.db) && RowsCovered(p, w) && RowsMatchAws(w) && TokensKnown(w) && TokensPrivate(w);
    if item in w.db.checkpoints {
      assert PatternWalk(p, w.db, item) && RowCovered(p, w, item) && RowMatchesAws(w, item);
      NotCompleteIsUnmarked(p, w.db, item);
    } else {
      OrderOfWindow(p, item.platform);
    }
  }

  // ----- the three ways a contact ends -----

  lemma ReceiptProgress(p: Plan, item: Item, row: Checkpoint, now: int)
    requires Good(p) && row.indexId in AuditIndexOrder(p, item.platform) && !CompletedThroughTarget(p, row)
    ensures IndicesLeft(p, item, AfterReceipt(p, item, row, now)) == IndicesLeft(p, item, row) - 1
    ensures AuditCheckpointComplete(p, item.platform, AfterReceipt(p, item, row, now)) <==> LastIndex(p, item, row)
  {
    ReceiptMovesOn(p, item, row, now);
    OrderOfWindow(p, item.platform);
  }

  /** A page that does not end the index is one page less on its own cursor and nothing on the other. */
  lemma PageProgress(p: Plan, w: World, item: Item, row: Checkpoint, page: Page, next: Option<nat>, viaAthena: bool,
                     delta: Counters, now: int)
    requires |p.window| > 0 && GoodRow(p, w, item, row) && !Exhausts(page, next, viaAthena)
    requires if viaAthena then row.execution.Some? && !row.resultsComplete
                               && next == NextResultToken(p, row.execution.value, Cursor(row))
             else page == CdxPage(p, item, row.indexId, row.page)
    ensures var after := AfterPage(row, delta, next, viaAthena, now);
      && IndicesLeft(p, item, after) == IndicesLeft(p, item, row)
      && after.execution == row.execution && after.token == row.token
      && PagesLeft(p, item, after) + 1 == PagesLeft(p, item, row)
  {
    hide IndexOf, AuditIndexOrder;
  }

  /** Under the conditions `c`, contact ends in a receipt, a page, a submission, or leaves the row to be tried again. */
  datatype Ending =
    | Receipt
    | PageRead(page: Page, next: Option<nat>, viaAthena: bool)
    | Submission(call: Call)
    | Waiting
    | Failure(restartQuery: bool)

  function ReadEnding(page: Page, next: Option<nat>, viaAthena: bool): Ending {
    if Exhausts(page, next, viaAthena) then Receipt else PageRead(page, next, viaAthena)
  }

  function HowItEnds(p: Plan, aws: Aws, item: Item, row: Checkpoint, c: Conditions): Ending {
    if !UsesAthena(p, row, c) then
      if c.broken then Failure(false) else ReadEnding(CdxPage(p, item, row.indexId, row.page), None, false)
    else if row.resultsComplete then ReadEnding([], None, true)
    else if row.execution.None? then Submission(c.call)
    else
      var e := row.execution.value;
      if c.broken || e >= |aws.log| || Cursor(row) >= |p.source.results(e)| then Failure(false)
      else match aws.log[e].status
        case InFlight => Waiting
        case Doomed => Failure(true)
        case Succeeded => ReadEnding(p.source.results(e)[Cursor(row)], NextResultToken(p, e, Cursor(row)), true)
  }

  /** AWS as the contact finds it. */
  function FoundAws(p: Plan, w: World, row: Checkpoint, c: Conditions): Aws {
    if UsesAthena(p, row, c) then Settled(w.aws, row, c) else w.aws
  }

  function Delta(p: Plan, db: Database, item: Item, page: Page): Counters {
    Counters(1, |page|, |CandidatesOf(p, item.platform, page) - db.candidates.Keys|)
  }

  /** The row after a contact, by how it ended. */
  function RowAfter(p: Plan, w: World, item: Item, row: Checkpoint, ending: Ending, now: int): Checkpoint
    requires |p.window| > 0
  {
    match ending
    case Receipt => AfterReceipt(p, item, row, now)
    case PageRead(page, next, viaAthena) => AfterPage(row, Delta(p, w.db, item, page), next, viaAthena, now)
    case Waiting => row.(nextAttemptAt := now + ATHENA_POLL_MS)
    case Failure(restartQuery) => FailedCheckpoint(row, row.failureCount + 1, RetryAt(row, now), restartQuery)
    case Submission(call) =>
      var held := row.(token := Some(TokenFor(w, row)));
      var saved := held.(execution := Some(StartQuery(w.aws, TokenFor(w, row), item, row.indexId).1), nextToken := None,
                         resultsComplete := false, nextAttemptAt := now + ATHENA_POLL_MS);
      match call
      case Saved => saved
      case IdWriteUncertain => FailedCheckpoint(saved, row.failureCount + 1, RetryAt(row, now), false)
      case _ => FailedCheckpoint(held, row.failureCount + 1, RetryAt(row, now), false)
  }

  function Reported(p: Plan, item: Item, row: Checkpoint, ending: Ending, now: int): QuantumResult
    requires |p.window| > 0
  {
    match ending
    case Receipt => if LastIndex(p, item, row) then Complete else Advanced
    case PageRead(_, _, _) => Advanced
    case Submission(call) => if call.Saved? then Advanced else Deferred(true, RetryAt(row, now))
    case Waiting => Deferred(false, now + ATHENA_POLL_MS)
    case Failure(_) => Deferred(true, RetryAt(row, now))
  }

  /** What a contact leaves behind: only its own row changes among the checkpoints, and only a receipt, a page or
      the run's counters besides it. */
  ghost predicate ContactEffect(p: Plan, w: World, item: Item, row: Checkpoint, ending: Ending, now: int, next: World)
    requires |p.window| > 0
  {
    && next.db.checkpoints == w.db.checkpoints[item := RowAfter(p, w, item, row, ending, now)]
    && next.db.run.status == w.db.run.status && next.worker == w.worker
    && (!ending.Receipt? ==>
          next.db.receipts == w.db.receipts && next.db.run.completedPatterns == w.db.run.completedPatterns)
    && (!ending.PageRead? ==> next.db.candidates == w.db.candidates && next.db.run.read == w.db.run.read)
  }

  lemma ReadEffect(p: Plan, w: World, u: World, item: Item, row: Checkpoint, page: Page, next: Option<nat>,
                   viaAthena: bool, now: int)
    requires |p.window| > 0 && u.db == WithCheckpoint(w.db, item, row) && u.worker == w.worker
    ensures var (v, result) := AfterRead(p, u, item, row, page, next, viaAthena, now);
      && ContactEffect(p, w, item, row, ReadEnding(page, next, viaAthena), now, v) && v.aws == u.aws && v.minted == u.minted
      && result == Reported(p, item, row, ReadEnding(page, next, viaAthena), now)
  {
    hide CandidatesOf, WithCandidates, AfterReceipt, IndexOf, AuditIndexOrder;
    var v := AfterRead(p, u, item, row, page, next, viaAthena, now).0;
    assert v.db.checkpoints == w.db.checkpoints[item := v.db.checkpoints[item]];
  }

  lemma FailureEffect(p: Plan, w: World, u: World, item: Item, row: Checkpoint, now: int, restartQuery: bool)
    requires |p.window| > 0 && u.db == WithCheckpoint(w.db, item, row) && u.worker == w.worker
    ensures var (v, result) := AfterFailure(u, item, row, now, restartQuery);
      && ContactEffect(p, w, item, row, Failure(restartQuery), now, v) && v.aws == u.aws && v.minted == u.minted
      && result == Reported(p, item, row, Failure(restartQuery), now)
  {
    hide RetryAt;
    var v := AfterFailure(u, item, row, now, restartQuery).0;
    assert v.db.checkpoints == w.db.checkpoints[item := v.db.checkpoints[item]];
  }

  lemma SubmissionEffect(p: Plan, w: World, u: World, item: Item, row: Checkpoint, call: Call, now: int)
    requires |p.window| > 0 && u.db == WithCheckpoint(w.db, item, row) && u.worker == w.worker
    requires u.aws == w.aws && u.minted == w.minted
    ensures var (v, result) := AfterSubmission(u, item, row, call, now);
      && ContactEffect(p, w, item, row, Submission(call), now, v)
      && v.aws == (if call.Refused? then w.aws else StartQuery(w.aws, TokenFor(w, row), item, row.indexId).0)
      && result == Reported(p, item, row, Submission(call), now)
  {
    hide CommonCrawlPageRetryDelay;
    var v := AfterSubmission(u, item, row, call, now).0;
    assert v.db.checkpoints == w.db.checkpoints[item := v.db.checkpoints[item]];
  }

  lemma WaitEffect(p: Plan, w: World, u: World, item: Item, row: Checkpoint, now: int)
    requires |p.window| > 0 && u.db == WithCheckpoint(w.db, item, row) && u.worker == w.worker
    ensures var v := u.(db := WithCheckpoint(u.db, item, u.db.checkpoints[item].(nextAttemptAt := now + ATHENA_POLL_MS)));
      ContactEffect(p, w, item, row, Waiting, now, v)
  {
    var v := u.(db := WithCheckpoint(u.db, item, u.db.checkpoints[item].(nextAttemptAt := now + ATHENA_POLL_MS)));
    assert v.db.checkpoints == w.db.checkpoints[item := v.db.checkpoints[item]];
  }

  function AwsAfter(w: World, item: Item, row: Checkpoint, ending: Ending): Aws {
    if ending.Submission? && !ending.call.Refused? then StartQuery(w.aws, TokenFor(w, row), item, row.indexId).0 else w.aws
  }

  lemma AthenaEffect(p: Plan, w: World, u: World, item: Item, row: Checkpoint, c: Conditions, now: int)
    requires |p.window| > 0 && u.db == WithCheckpoint(w.db, item, row) && u.worker == w.worker
    requires u.aws == w.aws && u.minted == w.minted && UsesAthena(p, row, c)
    ensures var (v, result) := AfterAthena(p, u, item, row, c, now);
            var ending := HowItEnds(p, w.aws, item, row, c);
      && ContactEffect(p, w, item, row, ending, now, v) && result == Reported(p, item, row, ending, now)
      && v.aws == AwsAfter(w, item, row, ending)
  {
    hide ContactEffect, AfterRead, AfterFailure, AfterSubmission, Exhausts, Reported, StartQuery;
    SubmissionEffect(p, w, u, item, row, c.call, now);
    ReadEffect(p, w, u, item, row, [], None, true, now);
    FailureEffect(p, w, u, item, row, now, true);
    FailureEffect(p, w, u, item, row, now, false);
    WaitEffect(p, w, u, item, row, now);
    assert Reported(p, item, row, Waiting, now) == Deferred(false, now + ATHENA_POLL_MS) by { WaitReport(p, item, row, now); }
    if row.execution.Some? && row.execution.value < |u.aws.log| && Cursor(row) < |p.source.results(row.execution.value)| {
      var e := row.execution.value;
      ReadEffect(p, w, u, item, row, p.source.results(e)[Cursor(row)], NextResultToken(p, e, Cursor(row)), true, now);
    }
  }

  lemma WaitReport(p: Plan, item: Item, row: Checkpoint, now: int)
    requires |p.window| > 0
    ensures Reported(p, item, row, Waiting, now) == Deferred(false, now + ATHENA_POLL_MS)
  {}

  /** The whole contact, by how it ends. */
  lemma QuantumEffect(p: Plan, w: World, item: Item, c: Conditions, now: int)
    requires |p.window| > 0 && Contacting(p, w, item, now)
    ensures var row := Row(p, w.db, item);
            var found := w.(aws := FoundAws(p, w, row, c));
            var ending := HowItEnds(p, found.aws, item, row, c);
            var (v, result) := AfterQuantum(p, w, item, c, now);
      && ContactEffect(p, found, item, row, ending, now, v) && result == Reported(p, item, row, ending, now)
      && v.aws == AwsAfter(found, item, row, ending)
  {
    hide ContactEffect, AfterRead, AfterFailure, AfterAthena, Exhausts, Reported, AuditCheckpointComplete, Settled, StartQuery;
    var row := Row(p, w.db, item);
    var found := w.(aws := FoundAws(p, w, row, c));
    var u := found.(db := WithCheckpoint(w.db, item, row));
    if UsesAthena(p, row, c) {
      AthenaEffect(p, found, u, item, row, c, now);
    } else {
      FailureEffect(p, found, u, item, row, now, false);
      ReadEffect(p, found, u, item, row, CdxPage(p, item, row.indexId, row.page), None, false, now);
    }
  }

  lemma SettlingKeepsRowGood(p: Plan, w: World, item: Item, row: Checkpoint, c: Conditions)
    requires |p.window| > 0 && GoodRow(p, w, item, row)
    ensures GoodRow(p, w.(aws := FoundAws(p, w, row, c)), item, row)
  {
    hide AuditIndexOrder, FirstEmpty, UsesAthena;
  }

  /** The row and how the contact with it ends, with everything the proofs below need to know about them. */
  lemma ContactFacts(p: Plan, w: World, item: Item, c: Conditions, now: int)
    requires Good(p) && Invariant(p, w) && Contacting(p, w, item, now)
    ensures var row := Row(p, w.db, item);
            var found := w.(aws := FoundAws(p, w, row, c));
            var ending := HowItEnds(p, found.aws, item, row, c);
            var (v, result) := AfterQuantum(p, w, item, c, now);
      && GoodRow(p, found, item, row)
      && ContactEffect(p, found, item, row, ending, now, v)
      && Row(p, v.db, item) == RowAfter(p, found, item, row, ending, now)
      && result == Reported(p, item, row, ending, now)
      && v.aws == AwsAfter(found, item, row, ending)
  {
    hide Invariant, AuditCheckpointComplete, HowItEnds, RowAfter, Reported, AwsAfter, GoodRow, AfterQuantum, FoundAws;
    RowIsGood(p, w, item, now);
    SettlingKeepsRowGood(p, w, item, Row(p, w.db, item), c);
    QuantumEffect(p, w, item, c, now);
  }

  // ----- what an advance uses up -----

  lemma EndingProgress(p: Plan, w: World, item: Item, row: Checkpoint, c: Conditions, now: int)
    requires Good(p) && GoodRow(p, w, item, row)
    ensures var ending := HowItEnds(p, w.aws, item, row, c);
      !Reported(p, item, row, ending, now).Deferred? ==> LessLeft(p, item, RowAfter(p, w, item, row, ending, now), row)
  {
    var ending := HowItEnds(p, w.aws, item, row, c);
    match ending
    case Receipt => ReceiptProgress(p, item, row, now);
    case PageRead(page, next, viaAthena) =>
      hide CdxPage, FirstEmpty;
      PageProgress(p, w, item, row, page, next, viaAthena, Delta(p, w.db, item, page), now);
    case _ =>
  }

  /** Every quantum that reports an advance or completion, other than one that finds its pattern complete already,
      strictly lowers the lexicographic rank of its row: indexes left, then a query to submit, then pages left. */
  lemma EveryAdvanceUsesUpWork(p: Plan, w: World, item: Item, c: Conditions, now: int)
    requires Good(p) && Invariant(p, w) && Contacting(p, w, item, now)
    requires !AfterQuantum(p, w, item, c, now).1.Deferred?
    ensures LessLeft(p, item, Row(p, AfterQuantum(p, w, item, c, now).0.db, item), Row(p, w.db, item))
  {
    assert |p.window| > 0;
    hide Good, Invariant, Contacting, AfterQuantum, Row, FoundAws, HowItEnds, GoodRow, RowAfter, Reported, LessLeft, AwsAfter;
    ContactFacts(p, w, item, c, now);
    var row := Row(p, w.db, item);
    EndingProgress(p, w.(aws := FoundAws(p, w, row, c)), item, row, c, now);
  }

  // ----- what a failure leaves alone -----

  /** The place a row has reached, in either source. */
  predicate SamePlaceReached(after: Checkpoint, before: Checkpoint) {
    && after.indexId == before.indexId && after.page == before.page && after.read == before.read
    && after.completedThrough == before.completedThrough
  }

  predicate SameAthenaCursor(after: Checkpoint, before: Checkpoint) {
    after.nextToken == before.nextToken && after.resultsComplete == before.resultsComplete
  }

  /** A quantum that reports a failure or a wait changes neither cursor, no candidate, no receipt and no counter, and
      no other pattern's row. The stored query survives it too, unless AWS has doomed that very execution: then, and
      only then, its fields are cleared so that a new query may be paid for. */
  lemma FailureLosesNothing(p: Plan, w: World, item: Item, c: Conditions, now: int)
    requires Good(p) && Invariant(p, w) && Contacting(p, w, item, now)
    requires AfterQuantum(p, w, item, c, now).1.Deferred?
    ensures var v := AfterQuantum(p, w, item, c, now).0;
            var before, after := Row(p, w.db, item), Row(p, v.db, item);
      && v.db.candidates == w.db.candidates && v.db.receipts == w.db.receipts && v.db.run == w.db.run
      && (forall j :: j != item && j in w.db.checkpoints ==> j in v.db.checkpoints && v.db.checkpoints[j] == w.db.checkpoints[j])
      && SamePlaceReached(after, before)
      && (SameAthenaCursor(after, before) || after.execution.None?)
      && (before.execution.Some? && after.execution != before.execution ==>
            && after.execution.None? && after.token.None? && after.nextToken.None? && !after.resultsComplete
            && before.execution.value < |v.aws.log| && v.aws.log[before.execution.value].status.Doomed?)
  {
    assert |p.window| > 0;
    hide Good, Invariant, Contacting, AfterQuantum, Row, FoundAws, HowItEnds, GoodRow, AuditIndexOrder, IndexOf, RetryAt, StartQuery;
    ContactFacts(p, w, item, c, now);
    var row := Row(p, w.db, item);
    var found := w.(aws := FoundAws(p, w, row, c));
    DeferredRow(p, found, item, row, c, now);
  }

  lemma DeferredRow(p: Plan, w: World, item: Item, row: Checkpoint, c: Conditions, now: int)
    requires |p.window| > 0 && GoodRow(p, w, item, row)
    requires Reported(p, item, row, HowItEnds(p, w.aws, item, row, c), now).Deferred?
    ensures var ending := HowItEnds(p, w.aws, item, row, c);
            var after := RowAfter(p, w, item, row, ending, now);
      && !ending.Receipt? && !ending.PageRead?
      && SamePlaceReached(after, row) && (SameAthenaCursor(after, row) || after.execution.None?)
      && (row.execution.Some? && after.execution != row.execution ==>
            && after.execution.None? && after.token.None? && after.nextToken.None? && !after.resultsComplete
            && row.execution.value < |w.aws.log| && w.aws.log[row.execution.value].status.Doomed?
            && AwsAfter(w, item, row, ending) == w.aws)
  {
    hide AuditIndexOrder, IndexOf, FirstEmpty, RetryAt;
  }

  // ----- draining cannot pay -----

  /** While a long wait goes on, only patterns whose execution id is stored are visited, and such a visit never
      starts a query: AWS holds the same tokens for the same executions, and none is added. */
  lemma DrainingNeverSubmits(p: Plan, w: World, item: Item, c: Conditions, now: int)
    requires Good(p) && Invariant(p, w) && Contacting(p, w, item, now) && Row(p, w.db, item).execution.Some?
    ensures var v := AfterQuantum(p, w, item, c, now).0;
      v.aws.holds == w.aws.holds && |v.aws.log| == |w.aws.log|
    ensures forall s :: s in QuantumSteps(p, w, item, c, now) ==> !s.CallAws? && !s.SaveToken?
  {
    DrainSteps(p, w, item, c, now);
    hide Good, Invariant, Contacting, AfterQuantum, Row, UsesAthena, GoodRow, AuditIndexOrder, IndexOf, RetryAt, StartQuery, RowAfter, ContactEffect, Reported;
    ContactFacts(p, w, item, c, now);
  }

  lemma DrainSteps(p: Plan, w: World, item: Item, c: Conditions, now: int)
    requires |p.window| > 0 && Row(p, w.db, item).execution.Some?
    ensures forall s :: s in QuantumSteps(p, w, item, c, now) ==> !s.CallAws? && !s.SaveToken?
  {
    hide AuditCheckpointComplete, AuditIndexOrder, Settled, RetryAt, CdxPage, Row;
  }
}

/**
 * What one quantum answers and writes, field by field: which source it contacts, when it submits, commits, earns or
 * backs off. Nothing here is defined through the functions the quantum itself is built from.
 */
module AuditContract {
  import opened Basics
  import opened RetryPolicy
  import opened CooperativeScheduler
  import opened AuditModel
  import opened AuditWalk
  import opened AuditSoundness
  import opened AuditQuantum

  /** Where a pattern stands, or would start: at the newest index or the oldest, with nothing read and nothing asked. */
  function StartingRow(p: Plan, db: Database, item: Item): Checkpoint
    requires |p.window| > 0
  {
    if item in db.checkpoints then db.checkpoints[item]
    else Checkpoint(if p.newestFirst(item.platform) then p.window[|p.window|-1] else p.window[0],
                    0, Counters(0, 0, 0), 0, 0, None, None, None, false, None)
  }

  predicate AtTheEnd(p: Plan, item: Item, row: Checkpoint)
    requires |p.window| > 0
  {
    row.indexId == (if p.newestFirst(item.platform) then p.window[0] else p.window[|p.window|-1])
  }

  predicate IsFinished(p: Plan, item: Item, row: Checkpoint)
    requires |p.window| > 0
  {
    AtTheEnd(p, item, row) && row.completedThrough == Some(p.window[|p.window|-1])
  }

  /** A row that fails for the n-th time in a row waits two to the n-1 minutes, at most fifteen. */
  function Postponed(row: Checkpoint, now: int): Checkpoint {
    row.(failureCount := row.failureCount + 1, nextAttemptAt := now + Capped(60_000 * Pow2(row.failureCount)))
  }

  /** Only the row of `item` differs, and it is `after`. */
  ghost predicate OnlyRow(db: Database, next: Database, item: Item, after: Checkpoint) {
    next == db.(checkpoints := db.checkpoints[item := after])
  }

  ghost predicate Postpones(db: Database, next: Database, item: Item, row: Checkpoint, now: int, result: QuantumResult) {
    && OnlyRow(db, next, item, Postponed(row, now))
    && result == Deferred(true, Postponed(row, now).nextAttemptAt)
  }

  /** The slugs a page yields; records without a URL, and slugs that are empty, yield none. */
  function SlugsOf(p: Plan, platform: Platform, page: Page): set<Slug> {
    set r | r in page && r.Some? && p.source.extractSlug(platform, r.value).Some?
            && p.source.extractSlug(platform, r.value).value.text != ""
      :: p.source.extractSlug(platform, r.value).value
  }

  /** New candidates are queued, known ones keep their status. */
  ghost predicate Queued(p: Plan, platform: Platform, page: Page, before: map<Candidate, Status>, after: map<Candidate, Status>) {
    && (forall c :: c in before ==> c in after && after[c] == before[c])
    && (forall c :: c in after && c !in before ==> after[c].Pending? && c.platform == platform && c.slug in SlugsOf(p, platform, page))
    && (forall s :: s in SlugsOf(p, platform, page) ==> Candidate(platform, s) in after)
  }

  function Added(read: Counters, page: Page, queued: nat): Counters {
    Counters(read.pages + 1, read.records + |page|, read.queued + queued)
  }

  /** The candidates of `page` with the counters of row and run; `moved` is the row with its cursor moved. */
  ghost predicate Commits(p: Plan, db: Database, next: Database, item: Item, row: Checkpoint, moved: Checkpoint, page: Page,
                          now: int, result: QuantumResult)
  {
    && result.Advanced? && Queued(p, item.platform, page, db.candidates, next.candidates)
    && |next.candidates| >= |db.candidates|
    && var queued := |next.candidates| - |db.candidates|;
       && next.checkpoints ==
            db.checkpoints[item := moved.(read := Added(row.read, page, queued), failureCount := 0, nextAttemptAt := now)]
       && next.run == db.run.(read := Added(db.run.read, page, queued))
       && next.receipts == db.receipts
  }

  /** Index `y` comes right after `x` on the pattern's walk, at place `k` of the window. */
  predicate ComesAfterAt(p: Plan, item: Item, x: IndexId, y: IndexId, k: nat) {
    && k + 1 < |p.window|
    && (if p.newestFirst(item.platform) then p.window[k] == y && p.window[k+1] == x else p.window[k] == x && p.window[k+1] == y)
  }

  ghost predicate ComesAfter(p: Plan, item: Item, x: IndexId, y: IndexId) {
    exists k :: ComesAfterAt(p, item, x, y, k)
  }

  /** The receipt of the row's index, and the next index of the walk, or the marker and the report that it is done. */
  ghost predicate Earns(p: Plan, db: Database, next: Database, item: Item, row: Checkpoint, now: int, result: QuantumResult)
    requires |p.window| > 0
  {
    && next.candidates == db.candidates
    && next.receipts == (if (item, row.indexId) in db.receipts then db.receipts else db.receipts[(item, row.indexId) := row.read])
    && (if AtTheEnd(p, item, row) then
          && result.Complete?
          && next.checkpoints == db.checkpoints[item := row.(completedThrough := Some(p.window[|p.window|-1]), failureCount := 0,
                                                             nextAttemptAt := now)]
          && next.run == db.run.(completedPatterns := db.run.completedPatterns + 1)
        else
          && result.Advanced? && next.run == db.run
          && item in next.checkpoints && ComesAfter(p, item, row.indexId, next.checkpoints[item].indexId)
          && next.checkpoints == db.checkpoints[item :=
               Checkpoint(next.checkpoints[item].indexId, 0, Counters(0, 0, 0), 0, now, None, None, None, false,
                          if p.newestFirst(item.platform) then None else Some(row.indexId))])
  }

  /** The direct API: AWS is left alone, and so are the row's query and its cursor. */
  ghost predicate ContactsDirectly(p: Plan, w: World, item: Item, row: Checkpoint, c: Conditions, now: int, v: World,
                                   result: QuantumResult)
    requires |p.window| > 0
  {
    var pages := p.source.cdx(item, row.indexId);
    && v == w.(db := v.db)
    && if c.broken then Postpones(w.db, v.db, item, row, now, result)
       else if row.page < |pages| && pages[row.page] != [] then
         Commits(p, w.db, v.db, item, row, row.(page := row.page + 1), pages[row.page], now, result)
       else Earns(p, w.db, v.db, item, row, now, result)
  }

  /** A token is drawn once; AWS keeps one execution for it; the id is stored, and polled fifteen seconds later, only
      when the call and the write of its answer both went through. */
  ghost predicate Submits(w: World, item: Item, row: Checkpoint, call: Call, now: int, v: World, result: QuantumResult) {
    var t := if row.token.Some? then row.token.value else w.minted;
    var known := t in w.aws.holds;
    var e := if known then w.aws.holds[t] else |w.aws.log|;
    var asked := if known then w.aws else Aws(w.aws.holds[t := e], w.aws.log + [Query(item, row.indexId, InFlight)]);
    var held := row.(token := Some(t));
    var answered := held.(execution := Some(e), nextToken := None, resultsComplete := false);
    && v == w.(db := v.db, aws := v.aws, minted := v.minted)
    && v.minted == (if row.token.Some? then w.minted else w.minted + 1)
    && match call
       case Refused => v.aws == w.aws && Postpones(w.db, v.db, item, held, now, result)
       case AnswerLost => v.aws == asked && Postpones(w.db, v.db, item, held, now, result)
       case IdWriteUncertain => v.aws == asked && Postpones(w.db, v.db, item, answered, now, result)
       case Saved =>
         v.aws == asked && result.Advanced? && OnlyRow(w.db, v.db, item, answered.(nextAttemptAt := now + 15_000))
  }

  /** What AWS did with execution `e` before it was looked at. */
  predicate SettlesTo(aws: Aws, e: Execution, settles: Option<QueryStatus>, found: Aws) {
    if e < |aws.log| && settles.Some? && ((aws.log[e].status.InFlight? && !settles.value.InFlight?)
                                         || (aws.log[e].status.Succeeded? && settles.value.Doomed?))
    then found == aws.(log := aws.log[e := aws.log[e].(status := settles.value)])
    else found == aws
  }

  /** Athena: a stored query is polled and its next result page taken; a verified dead one is given up. */
  ghost predicate PollsQuery(p: Plan, w: World, item: Item, row: Checkpoint, c: Conditions, now: int, v: World, result: QuantumResult)
    requires |p.window| > 0 && row.execution.Some?
  {
    var e := row.execution.value;
    var pages := p.source.results(e);
    var cursor := if row.nextToken.Some? then row.nextToken.value else 0;
    && v == w.(db := v.db, aws := v.aws, verdicts := v.verdicts)
    && SettlesTo(w.aws, e, c.settles, v.aws)
    && v.verdicts == (if !c.broken && e < |v.aws.log| && cursor < |pages| && v.aws.log[e].status.Doomed? then w.verdicts + {e} else w.verdicts)
    && if c.broken || e >= |v.aws.log| || cursor >= |pages| then Postpones(w.db, v.db, item, row, now, result)
       else match v.aws.log[e].status
         case InFlight => OnlyRow(w.db, v.db, item, row.(nextAttemptAt := now + 15_000)) && result == Deferred(false, now + 15_000)
         case Doomed =>
           Postpones(w.db, v.db, item, row.(execution := None, token := None, nextToken := None, resultsComplete := false), now, result)
         case Succeeded =>
           if cursor + 1 == |pages| && pages[cursor] == [] then Earns(p, w.db, v.db, item, row, now, result)
           else if cursor + 1 == |pages| then
             Commits(p, w.db, v.db, item, row, row.(nextToken := None, resultsComplete := true), pages[cursor], now, result)
           else
             Commits(p, w.db, v.db, item, row, row.(nextToken := Some(cursor + 1), resultsComplete := false), pages[cursor], now, result)
  }

  /** The whole quantum. A configured reader is used exactly for the indexes it knows, and then the direct API is not
      contacted at all; otherwise the direct API is, and AWS is not. */
  ghost predicate QuantumContract(p: Plan, w: World, item: Item, c: Conditions, now: int, v: World, result: QuantumResult)
    requires |p.window| > 0
  {
    var row := StartingRow(p, w.db, item);
    if IsFinished(p, item, row) then v == w && result.Complete?
    else if now < row.nextAttemptAt then
      v == w.(db := v.db) && OnlyRow(w.db, v.db, item, row) && result == Deferred(false, row.nextAttemptAt)
    else if !c.athenaConfigured || !p.source.inUrlIndex(row.indexId) then ContactsDirectly(p, w, item, row, c, now, v, result)
    else if row.resultsComplete then
      && v == w.(db := v.db, aws := v.aws) && Earns(p, w.db, v.db, item, row, now, result)
      && (if row.execution.None? then v.aws == w.aws else SettlesTo(w.aws, row.execution.value, c.settles, v.aws))
    else if row.execution.None? then Submits(w, item, row, c.call, now, v, result)
    else PollsQuery(p, w, item, row, c, now, v, result)
  }

  // ----- the quantum meets it -----

  lemma SameStart(p: Plan, db: Database, item: Item)
    requires |p.window| > 0
    ensures Row(p, db, item) == StartingRow(p, db, item)
  {}

  lemma SameEnd(p: Plan, item: Item, row: Checkpoint)
    requires |p.window| > 0
    ensures IsFinished(p, item, row) <==> AuditCheckpointComplete(p, item.platform, row)
  {}

  lemma FailureMeets(w: World, u: World, item: Item, row: Checkpoint, now: int, restartQuery: bool)
    requires u.db == WithCheckpoint(w.db, item, row)
    ensures var (v, result) := AfterFailure(u, item, row, now, restartQuery);
            var kept := if restartQuery then row.(execution := None, token := None, nextToken := None, resultsComplete := false) else row;
      && Postpones(w.db, v.db, item, kept, now, result)
      && v == u.(db := v.db, verdicts := if restartQuery && row.execution.Some? then u.verdicts + {row.execution.value} else u.verdicts)
  {
    DelayIsPower(row.failureCount);
    var v := AfterFailure(u, item, row, now, restartQuery).0;
    assert v.db.checkpoints == w.db.checkpoints[item := v.db.checkpoints[item]];
  }

  lemma ExtractedSlugs(p: Plan, platform: Platform, page: Page, c: Candidate)
    ensures c in CandidatesOf(p, platform, page) <==> c.platform == platform && c.slug in SlugsOf(p, platform, page)
  {}

  lemma QueuedCount(before: map<Candidate, Status>, found: set<Candidate>)
    ensures |WithCandidates(before, found)| == |before| + |found - before.Keys|
  {
    var after := WithCandidates(before, found);
    assert after.Keys == before.Keys + (found - before.Keys);
    assert |after| == |after.Keys| && |before| == |before.Keys|;
  }

  lemma CommitQueues(p: Plan, platform: Platform, page: Page, before: map<Candidate, Status>)
    ensures Queued(p, platform, page, before, WithCandidates(before, CandidatesOf(p, platform, page)))
  {
    var found := CandidatesOf(p, platform, page);
    forall c ensures c in found <==> c.platform == platform && c.slug in SlugsOf(p, platform, page) {
      ExtractedSlugs(p, platform, page, c);
    }
    hide SlugsOf, CandidatesOf;
    forall s | s in SlugsOf(p, platform, page) ensures Candidate(platform, s) in found {}
  }

  lemma CommitMeets(p: Plan, w: World, u: World, item: Item, row: Checkpoint, page: Page, next: Option<nat>, viaAthena: bool, now: int)
    requires |p.window| > 0 && u.db == WithCheckpoint(w.db, item, row) && !Exhausts(page, next, viaAthena)
    ensures var (v, result) := AfterRead(p, u, item, row, page, next, viaAthena, now);
            var moved := if viaAthena then row.(nextToken := next, resultsComplete := next.None?) else row.(page := row.page + 1);
      v == u.(db := v.db) && Commits(p, w.db, v.db, item, row, moved, page, now, result)
  {
    CommitQueues(p, item.platform, page, w.db.candidates);
    QueuedCount(w.db.candidates, CandidatesOf(p, item.platform, page));
    hide CandidatesOf, WithCandidates, Queued, AfterReceipt, AuditIndexOrder;
    var v := AfterRead(p, u, item, row, page, next, viaAthena, now).0;
    assert v.db.checkpoints == w.db.checkpoints[item := v.db.checkpoints[item]];
  }

  /** The place of an index in the walk and in the window. */
  lemma PlaceInWindow(p: Plan, platform: Platform, x: IndexId)
    requires Distinct(p.window) && x in p.window
    ensures var order := AuditIndexOrder(p, platform);
            var k := IndexOf(p.window, x);
      && k < |p.window| && p.window[k] == x
      && IndexOf(order, x) == (if p.newestFirst(platform) then |p.window| - 1 - k else k)
      && forall j :: 0 <= j < |order| ==> order[j] == p.window[if p.newestFirst(platform) then |p.window| - 1 - j else j]
  {
    var order, k := AuditIndexOrder(p, platform), IndexOf(p.window, x);
    OrderOfWindow(p, platform) by { assert |p.window| > 0; }
    IndexOfIsUnique(order, if p.newestFirst(platform) then |p.window| - 1 - k else k);
  }

  lemma ReceiptMeets(p: Plan, w: World, u: World, item: Item, row: Checkpoint, page: Page, next: Option<nat>, viaAthena: bool, now: int)
    requires |p.window| > 0 && Distinct(p.window) && row.indexId in p.window
    requires u.db == WithCheckpoint(w.db, item, row) && Exhausts(page, next, viaAthena)
    ensures var (v, result) := AfterRead(p, u, item, row, page, next, viaAthena, now);
      v == u.(db := v.db) && Earns(p, w.db, v.db, item, row, now, result)
  {
    PlaceInWindow(p, item.platform, row.indexId);
    ReceiptMoves(p, item, row, now);
    var v := AfterRead(p, u, item, row, page, next, viaAthena, now).0;
    assert LastIndex(p, item, row) <==> IndexOf(AuditIndexOrder(p, item.platform), row.indexId) + 1 >= |p.window|;
    assert v.db.checkpoints == w.db.checkpoints[item := AfterReceipt(p, item, row, now)];
    hide IndexOf, AuditIndexOrder, Distinct, AfterReceipt, AtTheEnd, ComesAfter, LastIndex;
  }

  lemma ReceiptMoves(p: Plan, item: Item, row: Checkpoint, now: int)
    requires |p.window| > 0 && Distinct(p.window) && row.indexId in p.window
    ensures AtTheEnd(p, item, row) <==> LastIndex(p, item, row)
    ensures var moved := AfterReceipt(p, item, row, now);
      if AtTheEnd(p, item, row)
      then moved == row.(completedThrough := Some(p.window[|p.window|-1]), failureCount := 0, nextAttemptAt := now)
      else ComesAfter(p, item, row.indexId, moved.indexId)
           && moved == Checkpoint(moved.indexId, 0, Counters(0, 0, 0), 0, now, None, None, None, false,
                                  if p.newestFirst(item.platform) then None else Some(row.indexId))
  {
    PlaceInWindow(p, item.platform, row.indexId);
    var k, newest := IndexOf(p.window, row.indexId), p.newestFirst(item.platform);
    var moved := AfterReceipt(p, item, row, now);
    var order := AuditIndexOrder(p, item.platform);
    assert order[|order|-1] == p.window[if newest then 0 else |p.window|-1];
    assert p.window[k] == p.window[if newest then 0 else |p.window|-1] <==> k == if newest then 0 else |p.window|-1;
    hide IndexOf, AuditIndexOrder, Distinct;
    if !LastIndex(p, item, row) {
      assert ComesAfterAt(p, item, row.indexId, moved.indexId, if newest then k - 1 else k);
    }
  }

  lemma SubmissionMeets(w: World, u: World, item: Item, row: Checkpoint, call: Call, now: int)
    requires u == w.(db := WithCheckpoint(w.db, item, row))
    ensures var (v, result) := AfterSubmission(u, item, row, call, now); Submits(w, item, row, call, now, v, result)
  {
    hide AfterFailure, Capped, Pow2;
    var held := row.(token := Some(TokenFor(w, row)));
    var v := WithToken(u, item, row);
    assert v.db == WithCheckpoint(w.db, item, held) by { assert v.db.checkpoints == w.db.checkpoints[item := held]; }
    FailureMeets(w, v, item, held, now, false);
    var (aws, e) := StartQuery(v.aws, TokenFor(w, row), item, row.indexId);
    var asked := v.(aws := aws);
    FailureMeets(w, asked, item, held, now, false);
    var cp := held.(execution := Some(e), nextToken := None, resultsComplete := false, nextAttemptAt := now + ATHENA_POLL_MS);
    var saved := asked.(db := WithCheckpoint(asked.db, item, cp));
    assert saved.db == WithCheckpoint(w.db, item, cp) by { assert saved.db.checkpoints == w.db.checkpoints[item := cp]; }
    FailureMeets(w, saved, item, cp, now, false);
  }

  lemma PollMeets(p: Plan, w: World, u: World, item: Item, row: Checkpoint, c: Conditions, now: int)
    requires |p.window| > 0 && Distinct(p.window) && row.indexId in p.window && row.execution.Some? && !row.resultsComplete
    requires u == w.(db := WithCheckpoint(w.db, item, row), aws := Settled(w.aws, row, c))
    ensures var (v, result) := AfterAthena(p, u, item, row, c, now); PollsQuery(p, w, item, row, c, now, v, result)
  {
    hide AfterFailure, AfterRead, Postpones, Commits, Earns;
    FailureMeets(w, u, item, row, now, false);
    FailureMeets(w, u, item, row, now, true);
    var e := row.execution.value;
    if e < |u.aws.log| && Cursor(row) < |p.source.results(e)| {
      var page, next := p.source.results(e)[Cursor(row)], NextResultToken(p, e, Cursor(row));
      if Exhausts(page, next, true) { ReceiptMeets(p, w, u, item, row, page, next, true, now); }
      else { CommitMeets(p, w, u, item, row, page, next, true, now); }
    }
    var v := AfterAthena(p, u, item, row, c, now).0;
    assert w.db.checkpoints[item := row][item := row.(nextAttemptAt := now + 15_000)]
           == w.db.checkpoints[item := row.(nextAttemptAt := now + 15_000)];
  }

  lemma DirectMeets(p: Plan, w: World, u: World, item: Item, row: Checkpoint, c: Conditions, now: int)
    requires |p.window| > 0 && Distinct(p.window) && row.indexId in p.window
    requires u == w.(db := WithCheckpoint(w.db, item, row))
    ensures var (v, result) := AfterCdx(p, u, item, row, c, now); ContactsDirectly(p, w, item, row, c, now, v, result)
  {
    hide AfterFailure, AfterRead, Postpones, Commits, Earns;
    FailureMeets(w, u, item, row, now, false);
    var page := CdxPage(p, item, row.indexId, row.page);
    if page == [] { ReceiptMeets(p, w, u, item, row, page, None, false, now); }
    else { CommitMeets(p, w, u, item, row, page, None, false, now); }
  }

  /** Every quantum of a row whose index lies in the window, and in a reachable world each does, meets the contract. */
  lemma QuantumMeetsContract(p: Plan, w: World, item: Item, c: Conditions, now: int)
    requires |p.window| > 0 && Distinct(p.window) && StartingRow(p, w.db, item).indexId in p.window
    ensures var (v, result) := AfterQuantum(p, w, item, c, now); QuantumContract(p, w, item, c, now, v, result)
  {
    var row := Row(p, w.db, item);
    SameStart(p, w.db, item);
    SameEnd(p, item, row);
    var u := w.(db := WithCheckpoint(w.db, item, row));
    hide AuditCheckpointComplete, IsFinished, AfterAthena, AfterCdx, ContactsDirectly, PollsQuery, Submits, Earns, StartingRow, Row;
    if item !in w.db.checkpoints { assert !IsFinished(p, item, row) by { FreshIsUnfinished(p, w.db, item); } }
    if !IsFinished(p, item, row) && row.nextAttemptAt <= now {
      if !UsesAthena(p, row, c) {
        DirectMeets(p, w, u, item, row, c, now);
      } else {
        AthenaMeets(p, w, item, row, c, now);
      }
    }
  }

  lemma FreshIsUnfinished(p: Plan, db: Database, item: Item)
    requires |p.window| > 0 && item !in db.checkpoints
    ensures !IsFinished(p, item, Row(p, db, item))
  {}

  lemma AthenaMeets(p: Plan, w: World, item: Item, row: Checkpoint, c: Conditions, now: int)
    requires |p.window| > 0 && Distinct(p.window) && row.indexId in p.window
    ensures var u := w.(db := WithCheckpoint(w.db, item, row), aws := Settled(w.aws, row, c));
            var (v, result) := AfterAthena(p, u, item, row, c, now);
      if row.resultsComplete then
        && v == w.(db := v.db, aws := v.aws) && Earns(p, w.db, v.db, item, row, now, result)
        && (if row.execution.None? then v.aws == w.aws else SettlesTo(w.aws, row.execution.value, c.settles, v.aws))
      else if row.execution.None? then Submits(w, item, row, c.call, now, v, result)
      else PollsQuery(p, w, item, row, c, now, v, result)
  {
    var u := w.(db := WithCheckpoint(w.db, item, row), aws := Settled(w.aws, row, c));
    hide PollsQuery, Submits, Earns, AfterRead, AfterSubmission;
    if row.resultsComplete {
      ReceiptMeets(p, w, u, item, row, [], None, true, now);
    } else if row.execution.None? {
      assert u == w.(db := WithCheckpoint(w.db, item, row));
      SubmissionMeets(w, u, item, row, c.call, now);
    } else {
      PollMeets(p, w, u, item, row, c, now);
    }
  }

  lemma RowsStandInWindow(p: Plan, w: World, item: Item)
    requires Good(p) && Walk(p, w.db)
    ensures |p.window| > 0 && Distinct(p.window) && StartingRow(p, w.db, item).indexId in p.window
  {
    if item in w.db.checkpoints {
      assert PatternsWalk(p, w.db) && PatternWalk(p, w.db, item);
      OrderOfWindow(p, item.platform);
    }
  }

  /** In every world a run can reach, every quantum meets the contract. */
  lemma ReachableQuantumMeetsContract(p: Plan, w: World, item: Item, c: Conditions, now: int)
    requires Reachable(p, w)
    ensures |p.window| > 0
    ensures var (v, result) := AfterQuantum(p, w, item, c, now); QuantumContract(p, w, item, c, now, v, result)
  {
    ReachableInvariant(p, w);
    assert Walk(p, w.db);
    RowsStandInWindow(p, w, item);
    hide Reachable, Invariant, Good, Walk;
    QuantumMeetsContract(p, w, item, c, now);
  }

  // ----- the two sources stay apart -----

  predicate SameQuery(after: Checkpoint, before: Checkpoint) {
    after.execution == before.execution && after.token == before.token && after.nextToken == before.nextToken
    && after.resultsComplete == before.resultsComplete
  }

  lemma NeighboursDiffer(p: Plan, item: Item, x: IndexId, y: IndexId)
    requires Distinct(p.window) && ComesAfter(p, item, x, y)
    ensures x != y
  {
    var k :| ComesAfterAt(p, item, x, y, k);
  }

  lemma EarningMovesOn(p: Plan, db: Database, next: Database, item: Item, row: Checkpoint, now: int, result: QuantumResult)
    requires |p.window| > 0 && Distinct(p.window) && Earns(p, db, next, item, row, now, result)
    ensures item in next.checkpoints
    ensures next.checkpoints[item].indexId == row.indexId ==>
      next.checkpoints[item].page == row.page && SameQuery(next.checkpoints[item], row)
  {
    if !AtTheEnd(p, item, row) { NeighboursDiffer(p, item, row.indexId, next.checkpoints[item].indexId); }
    hide ComesAfter, AtTheEnd, Distinct;
  }

  lemma DirectLeavesQuery(p: Plan, w: World, item: Item, row: Checkpoint, c: Conditions, now: int, v: World, result: QuantumResult)
    requires |p.window| > 0 && Distinct(p.window) && ContactsDirectly(p, w, item, row, c, now, v, result)
    ensures v.aws == w.aws && v.minted == w.minted && v.verdicts == w.verdicts && item in v.db.checkpoints
    ensures v.db.checkpoints[item].indexId == row.indexId ==> SameQuery(v.db.checkpoints[item], row)
  {
    hide Queued, Capped, Pow2, Earns, Distinct;
    if Earns(p, w.db, v.db, item, row, now, result) { EarningMovesOn(p, w.db, v.db, item, row, now, result); }
  }

  lemma PollingLeavesPage(p: Plan, w: World, item: Item, row: Checkpoint, c: Conditions, now: int, v: World, result: QuantumResult)
    requires |p.window| > 0 && Distinct(p.window) && row.execution.Some? && PollsQuery(p, w, item, row, c, now, v, result)
    ensures item in v.db.checkpoints && (v.db.checkpoints[item].indexId == row.indexId ==> v.db.checkpoints[item].page == row.page)
  {
    hide Queued, Capped, Pow2, Earns, Distinct;
    if Earns(p, w.db, v.db, item, row, now, result) { EarningMovesOn(p, w.db, v.db, item, row, now, result); }
  }

  lemma SubmittingLeavesPage(w: World, item: Item, row: Checkpoint, call: Call, now: int, v: World, result: QuantumResult)
    requires Submits(w, item, row, call, now, v, result)
    ensures item in v.db.checkpoints && v.db.checkpoints[item].indexId == row.indexId && v.db.checkpoints[item].page == row.page
    ensures call.Saved? ==> v.db.checkpoints[item].execution.Some? && result.Advanced?
  {
    hide Capped, Pow2;
  }

  /** With a reader that knows the index, a quantum never reads the direct API and never moves its cursor within the
      index; a row that has no query yet gets one, whose id is stored when the call is. Otherwise no quantum asks AWS
      anything: it leaves AWS as it is, and the row's query and its cursor too, unless the index ends. */
  lemma SourcesStayApart(p: Plan, w: World, item: Item, c: Conditions, now: int)
    requires |p.window| > 0 && Distinct(p.window) && StartingRow(p, w.db, item).indexId in p.window
    requires !IsFinished(p, item, StartingRow(p, w.db, item)) && StartingRow(p, w.db, item).nextAttemptAt <= now
    ensures var row := StartingRow(p, w.db, item);
            var (v, result) := AfterQuantum(p, w, item, c, now);
      && item in v.db.checkpoints
      && var after := v.db.checkpoints[item];
         if c.athenaConfigured && p.source.inUrlIndex(row.indexId) then
           && (after.indexId == row.indexId ==> after.page == row.page)
           && (row.execution.None? && !row.resultsComplete && c.call.Saved? ==>
                 after.execution.Some? && after.indexId == row.indexId && result.Advanced?)
         else
           && v.aws == w.aws && v.minted == w.minted && v.verdicts == w.verdicts
           && (after.indexId == row.indexId ==> SameQuery(after, row))
  {
    var row := StartingRow(p, w.db, item);
    var (v, result) := AfterQuantum(p, w, item, c, now);
    QuantumMeetsContract(p, w, item, c, now);
    hide AfterQuantum, StartingRow, IsFinished, ContactsDirectly, Earns, Submits, PollsQuery, SettlesTo, SameQuery, Distinct;
    if !(c.athenaConfigured && p.source.inUrlIndex(row.indexId)) {
      DirectLeavesQuery(p, w, item, row, c, now, v, result);
    } else if row.resultsComplete {
      EarningMovesOn(p, w.db, v.db, item, row, now, result);
    } else if row.execution.None? {
      SubmittingLeavesPage(w, item, row, c.call, now, v, result);
    } else {
      PollingLeavesPage(p, w, item, row, c, now, v, result);
    }
  }

  lemma StepsStayApart(p: Plan, w: World, item: Item, c: Conditions, now: int)
    requires |p.window| > 0
    ensures var steps := QuantumSteps(p, w, item, c, now);
      if c.athenaConfigured && p.source.inUrlIndex(StartingRow(p, w.db, item).indexId)
      then forall s :: s in steps ==> !s.ReadCdx?
      else forall s :: s in steps ==> !s.ReadAthena? && !s.CallAws? && !s.SaveToken? && !s.ReuseToken? && !s.KeepWaiting?
  {
    SameStart(p, w.db, item);
    hide AuditCheckpointComplete, Row, StartingRow, RetryAt, Settled, CdxPage, Exhausts, NextResultToken, Cursor;
  }
}

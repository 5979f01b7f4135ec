/**
 * The audit's database client as the program uses it: rows that are read, changed and written back one operation
 * at a time. Each operation is proved to do what the transition system's functions say.
 */
module AuditStore {
  import opened Basics
  import opened RetryPolicy
  import opened CooperativeScheduler
  import opened AuditModel
  import opened AuditQuantum
  import opened AuditContract

  const CANDIDATE_INSERT_CHUNK: nat := 1000

  /** What one read of the stored query yields. */
  datatype AthenaRead =
    | Submitted
    | Waits(retryAt: int)
    | PageOf(page: Page, next: Option<nat>)
    | Broken(restartQuery: bool)

  function SlugSet(platform: Platform, slugs: seq<Slug>): set<Candidate> {
    set s | s in slugs :: Candidate(platform, s)
  }

  /** The distinct slugs of a page by exact spelling, in order of first appearance. */
  method ExtractAuditCandidates(p: Plan, platform: Platform, records: Page) returns (slugs: seq<Slug>)
    ensures Distinct(slugs)
    ensures SlugSet(platform, slugs) == CandidatesOf(p, platform, records)
    ensures |slugs| == |CandidatesOf(p, platform, records)|
  {
    slugs := [];
    var k := 0;
    while k < |records|
      invariant k <= |records|
      invariant Distinct(slugs)
      invariant forall s :: s in slugs <==> exists j :: 0 <= j < k && SlugOf(p, platform, records[j]) == Some(s)
    {
      var slug := SlugOf(p, platform, records[k]);
      if slug.Some? && slug.value !in slugs { slugs := slugs + [slug.value]; }
      k := k + 1;
    }
    SlugsAreCandidates(p, platform, records, slugs);
    DistinctSlugs(platform, slugs);
  }

  lemma SlugsAreCandidates(p: Plan, platform: Platform, records: Page, slugs: seq<Slug>)
    requires forall s :: s in slugs <==> exists j :: 0 <= j < |records| && SlugOf(p, platform, records[j]) == Some(s)
    ensures SlugSet(platform, slugs) == CandidatesOf(p, platform, records)
  {
    forall c | c in SlugSet(platform, slugs) ensures c in CandidatesOf(p, platform, records) {
      var j :| 0 <= j < |records| && SlugOf(p, platform, records[j]) == Some(c.slug);
      assert records[j] in records;
    }
    forall c | c in CandidatesOf(p, platform, records) ensures c in SlugSet(platform, slugs) {
      var r :| r in records && SlugOf(p, platform, r).Some? && c == Candidate(platform, SlugOf(p, platform, r).value);
      var j :| 0 <= j < |records| && records[j] == r;
      assert SlugOf(p, platform, records[j]) == Some(c.slug);
    }
  }

  lemma {:induction false} DistinctSlugs(platform: Platform, slugs: seq<Slug>)
    requires Distinct(slugs)
    ensures |SlugSet(platform, slugs)| == |slugs|
  {
    if slugs == [] {
      assert SlugSet(platform, slugs) == {};
    } else {
      var front, last := slugs[..|slugs|-1], slugs[|slugs|-1];
      DistinctSlugs(platform, front);
      assert slugs == front + [last];
      assert last !in front;
      assert SlugSet(platform, slugs) == SlugSet(platform, front) + {Candidate(platform, last)};
    }
  }

  /** `createMany` with `skipDuplicates`, chunk after chunk: the rows afterwards, and how many are new in all. */
  lemma ChunksAddUp(rows: map<Candidate, Status>, a: set<Candidate>, b: set<Candidate>)
    ensures WithCandidates(WithCandidates(rows, a), b) == WithCandidates(rows, a + b)
    ensures |a - rows.Keys| + |b - WithCandidates(rows, a).Keys| == |(a + b) - rows.Keys|
  {
    RowsAddUp(rows, a, b);
    assert WithCandidates(rows, a).Keys == rows.Keys + a;
    hide WithCandidates;
    CountsAddUp(rows.Keys, a, b);
  }

  lemma RowsAddUp(rows: map<Candidate, Status>, a: set<Candidate>, b: set<Candidate>)
    ensures WithCandidates(WithCandidates(rows, a), b) == WithCandidates(rows, a + b)
  {
    var once, twice := WithCandidates(rows, a + b), WithCandidates(WithCandidates(rows, a), b);
    assert once.Keys == rows.Keys + (a + b);
    assert twice.Keys == rows.Keys + (a + b);
    assert forall c :: c in once ==> once[c] == twice[c];
  }

  lemma CountsAddUp(keys: set<Candidate>, a: set<Candidate>, b: set<Candidate>)
    ensures |a - keys| + |b - (keys + a)| == |(a + b) - keys|
  {
    var x, y := a - keys, b - (keys + a);
    assert (a + b) - keys == x + y && x !! y;
  }

  lemma NothingInserted(platform: Platform, rows: map<Candidate, Status>, slugs: seq<Slug>)
    ensures WithCandidates(rows, SlugSet(platform, slugs[..0])) == rows && SlugSet(platform, slugs[..0]) == {}
  {}

  lemma SlugsSplit(platform: Platform, slugs: seq<Slug>, offset: nat, end: nat)
    requires offset <= end <= |slugs|
    ensures SlugSet(platform, slugs[..end]) == SlugSet(platform, slugs[..offset]) + SlugSet(platform, slugs[offset..end])
  {
    assert slugs[..end] == slugs[..offset] + slugs[offset..end];
  }

  function IncompleteRows(p: Plan, rows: map<Item, Checkpoint>): set<Item>
    requires |p.window| > 0
  {
    set i | i in rows && !CompletedThroughTarget(p, rows[i])
  }

  function OpenCandidates(rows: map<Candidate, Status>): set<Candidate> {
    set c | c in rows && rows[c].Open()
  }

  lemma ZeroMeansNone(p: Plan, rows: map<Item, Checkpoint>, candidates: map<Candidate, Status>)
    requires |p.window| > 0
    ensures |IncompleteRows(p, rows)| == 0 <==> forall i :: i in rows ==> CompletedThroughTarget(p, rows[i])
    ensures |OpenCandidates(candidates)| == 0 <==> forall c :: c in candidates ==> !candidates[c].Open()
  {
    if |IncompleteRows(p, rows)| == 0 {
      forall i | i in rows ensures CompletedThroughTarget(p, rows[i]) { assert i !in IncompleteRows(p, rows); }
    } else {
      var i :| i in IncompleteRows(p, rows);
      assert !CompletedThroughTarget(p, rows[i]);
    }
    if |OpenCandidates(candidates)| == 0 {
      forall c | c in candidates ensures !candidates[c].Open() { assert c !in OpenCandidates(candidates); }
    } else {
      var c :| c in OpenCandidates(candidates);
      assert candidates[c].Open();
    }
  }

  lemma NobodyUnresolved(candidates: map<Candidate, Status>)
    ensures |set c | c in candidates && candidates[c].Unresolved?| == 0
            <==> forall c :: c in candidates ==> !candidates[c].Unresolved?
  {
    var unresolved := set c | c in candidates && candidates[c].Unresolved?;
    if unresolved == {} {
      forall c | c in candidates ensures !candidates[c].Unresolved? { assert c !in unresolved; }
    } else {
      var c :| c in unresolved;
      assert candidates[c].Unresolved?;
    }
  }

  class AuditClient {
    const plan: Plan
    var checkpoints: map<Item, Checkpoint>
    var receipts: map<(Item, IndexId), Counters>
    var candidates: map<Candidate, Status>
    var run: Run
    var aws: Aws
    var minted: nat
    ghost var verdicts: set<Execution>

    ghost function State(): World
      reads this
    {
      World(Database(checkpoints, receipts, candidates, run), aws, Worker.Idle, minted, verdicts)
    }

    constructor (p: Plan)
      requires |p.window| > 0
      ensures plan == p && State() == InitialWorld(p)
    {
      plan := p;
      checkpoints := map i | i in p.items :: FreshCheckpoint(AuditIndexOrder(p, i.platform)[0]);
      receipts, candidates, run := map[], map[], Run(ZERO, 0, Running);
      aws, minted, verdicts := Aws(map[], []), 0, {};
    }

    method InsertCandidates(platform: Platform, slugs: seq<Slug>) returns (inserted: nat)
      modifies this`candidates
      ensures candidates == WithCandidates(old(candidates), SlugSet(platform, slugs))
      ensures inserted == |SlugSet(platform, slugs) - old(candidates.Keys)|
    {
      inserted := 0;
      var offset := 0;
      NothingInserted(platform, candidates, slugs);
      hide WithCandidates, SlugSet;
      while offset < |slugs|
        invariant offset <= |slugs|
        invariant candidates == WithCandidates(old(candidates), SlugSet(platform, slugs[..offset]))
        invariant inserted == |SlugSet(platform, slugs[..offset]) - old(candidates.Keys)|
        decreases |slugs| - offset
      {
        var end := if offset + CANDIDATE_INSERT_CHUNK < |slugs| then offset + CANDIDATE_INSERT_CHUNK else |slugs|;
        var chunk := SlugSet(platform, slugs[offset..end]);
        SlugsSplit(platform, slugs, offset, end);
        ChunksAddUp(old(candidates), SlugSet(platform, slugs[..offset]), chunk);
        inserted := inserted + |chunk - candidates.Keys|;
        candidates := WithCandidates(candidates, chunk);
        offset := end;
      }
      assert slugs[..|slugs|] == slugs;
    }

    /** Present the stored request token, or store a fresh one first. What remains for the caller to do with the
        answer completes the quantum the transition system describes. */
    method ReadAthenaCheckpoint(item: Item, seen: Checkpoint, c: Conditions, now: int) returns (read: AthenaRead)
      requires |plan.window| > 0 && item in checkpoints && checkpoints[item] == seen
      modifies this
      ensures item in checkpoints && (read.PageOf? ==> checkpoints == old(checkpoints))
      ensures AfterAthena(plan, old(State()), item, seen, c, now) ==
        match read
        case Submitted => (State(), Advanced)
        case Waits(retryAt) => (State(), Deferred(false, retryAt))
        case PageOf(page, next) => AfterRead(plan, State(), item, seen, page, next, true, now)
        case Broken(restartQuery) => AfterFailure(State(), item, seen, now, restartQuery)
    {
      hide AfterRead, RetryAt, StartQuery;
      if seen.resultsComplete { return PageOf([], None); }
      if seen.execution.None? {
        read := SubmitQuery(item, seen, c.call, now);
        return;
      }
      var e := seen.execution.value;
      if c.broken || e >= |aws.log| || Cursor(seen) >= |plan.source.results(e)| { return Broken(false); }
      match aws.log[e].status {
        case InFlight =>
          var retryAt := now + ATHENA_POLL_MS;
          checkpoints := checkpoints[item := checkpoints[item].(nextAttemptAt := retryAt)];
          return Waits(retryAt);
        case Doomed => return Broken(true);
        case Succeeded => return PageOf(plan.source.results(e)[Cursor(seen)], NextResultToken(plan, e, Cursor(seen)));
      }
    }

    method SubmitQuery(item: Item, seen: Checkpoint, call: Call, now: int) returns (read: AthenaRead)
      requires item in checkpoints && checkpoints[item] == seen
      modifies this
      ensures item in checkpoints && (read.Submitted? || read == Broken(false))
      ensures AfterSubmission(old(State()), item, seen, call, now) ==
        if read.Submitted? then (State(), Advanced) else AfterFailure(State(), item, seen, now, false)
    {
      hide CommonCrawlPageRetryDelay;
      var token := if seen.token.Some? then seen.token.value else minted;
      if seen.token.None? {
        // This write is finished before AWS is contacted.
        checkpoints := checkpoints[item := checkpoints[item].(token := Some(token))];
        minted := minted + 1;
      }
      if call.Refused? { return Broken(false); }
      var (after, e) := StartQuery(aws, token, item, seen.indexId);
      aws := after;
      if call.AnswerLost? { return Broken(false); }
      checkpoints := checkpoints[item := checkpoints[item].(execution := Some(e), nextToken := None,
                                                            resultsComplete := false, nextAttemptAt := now + ATHENA_POLL_MS)];
      read := if call.IdWriteUncertain? then Broken(false) else Submitted;
    }

    /** One page, one submission or one poll for one pattern. */
    method CrawlPatternQuantum(item: Item, c: Conditions, now: int) returns (result: QuantumResult)
      requires |plan.window| > 0
      modifies this
      ensures (State(), result) == AfterQuantum(plan, old(State()), item, c, now)
      ensures Distinct(plan.window) && StartingRow(plan, old(State()).db, item).indexId in plan.window ==>
                QuantumContract(plan, old(State()), item, c, now, State(), result)
    {
      if Distinct(plan.window) && StartingRow(plan, State().db, item).indexId in plan.window {
        QuantumMeetsContract(plan, State(), item, c, now);
      }
      hide QuantumContract, StartingRow, Distinct;
      hide AfterRead, AfterFailure, AfterAthena, AuditCheckpointComplete, Settled;
      var order := AuditIndexOrder(plan, item.platform);
      var known := item in checkpoints;
      if !known { checkpoints := checkpoints[item := FreshCheckpoint(order[0])]; }
      var checkpoint := checkpoints[item];
      ghost var row := Row(plan, old(State()).db, item);
      assert checkpoint == row && checkpoints == old(checkpoints)[item := row];
      if known && AuditCheckpointComplete(plan, item.platform, checkpoint) {
        assert State() == old(State());
        return Complete;
      }
      if now < checkpoint.nextAttemptAt { return Deferred(false, checkpoint.nextAttemptAt); }

      if UsesAthena(plan, checkpoint, c) {
        aws := Settled(aws, checkpoint, c); // what AWS did with the query since it was last looked at
        var read := ReadAthenaCheckpoint(item, checkpoint, c, now);
        match read {
          case Submitted => return Advanced;
          case Waits(retryAt) => return Deferred(false, retryAt);
          case PageOf(page, next) => result := TakePage(item, checkpoint, page, next, true, now);
          case Broken(restartQuery) => result := TakeFailure(item, checkpoint, now, restartQuery);
        }
      } else if c.broken {
        result := TakeFailure(item, checkpoint, now, false);
      } else {
        result := TakePage(item, checkpoint, CdxPage(plan, item, checkpoint.indexId, checkpoint.page), None, false, now);
      }
    }

    method TakeFailure(item: Item, seen: Checkpoint, now: int, restartQuery: bool) returns (result: QuantumResult)
      requires item in checkpoints
      modifies this`checkpoints, this`verdicts
      ensures (State(), result) == AfterFailure(old(State()), item, seen, now, restartQuery)
    {
      hide CommonCrawlPageRetryDelay;
      var failureCount := seen.failureCount + 1;
      var retryAt := now + CommonCrawlPageRetryDelay(failureCount);
      var next := checkpoints[item].(failureCount := failureCount, nextAttemptAt := retryAt);
      if restartQuery {
        // Only a verified dead query permits another paid scan.
        next := next.(execution := None, token := None, nextToken := None, resultsComplete := false);
        verdicts := if seen.execution.Some? then verdicts + {seen.execution.value} else verdicts;
      }
      checkpoints := checkpoints[item := next];
      result := Deferred(true, retryAt);
    }

    method TakePage(item: Item, seen: Checkpoint, page: Page, next: Option<nat>, viaAthena: bool, now: int)
      returns (result: QuantumResult)
      requires |plan.window| > 0 && item in checkpoints && checkpoints[item] == seen
      modifies this
      ensures (State(), result) == AfterRead(plan, old(State()), item, seen, page, next, viaAthena, now)
    {
      if page == [] && (!viaAthena || next.None?) {
        result := EarnIndexReceipt(item, seen, now);
      } else {
        CommitCandidates(item, page, next, viaAthena, now);
        result := Advanced;
      }
    }

    /** The index is exhausted: its receipt, the move to the next index or the completion marker, and the run's
        count of finished patterns, in one transaction. */
    method EarnIndexReceipt(item: Item, seen: Checkpoint, now: int) returns (result: QuantumResult)
      requires |plan.window| > 0 && item in checkpoints && checkpoints[item] == seen
      modifies this
      ensures State() == old(State()).(db := ReceiptedDb(plan, old(State()).db, item, seen, now))
      ensures result == if LastIndex(plan, item, seen) then Complete else Advanced
    {
      var order := AuditIndexOrder(plan, item.platform);
      var indexPosition := IndexOf(order, seen.indexId);
      var isTarget := indexPosition + 1 >= |order|;
      if (item, seen.indexId) !in receipts { receipts := receipts[(item, seen.indexId) := seen.read]; }
      if isTarget {
        checkpoints := checkpoints[item := checkpoints[item].(completedThrough := Some(Target(plan)), failureCount := 0,
                                                              nextAttemptAt := now)];
        run := run.(completedPatterns := run.completedPatterns + 1);
      } else {
        checkpoints := checkpoints[item := Checkpoint(order[indexPosition + 1], 0, ZERO, 0, now, None, None, None, false,
                                                      if plan.newestFirst(item.platform) then None else Some(seen.indexId))];
      }
      result := if isTarget then Complete else Advanced;
    }

    /** Candidates, counters and cursor of one page, in one transaction. */
    method CommitCandidates(item: Item, page: Page, next: Option<nat>, viaAthena: bool, now: int)
      requires item in checkpoints
      modifies this
      ensures State() == old(State()).(db := CommittedDb(plan, old(State()).db, item, page, next, viaAthena, now))
    {
      hide CandidatesOf, WithCandidates, SlugSet;
      var slugs := ExtractAuditCandidates(plan, item.platform, page);
      var inserted := InsertCandidates(item.platform, slugs);
      var cp := checkpoints[item];
      cp := cp.(read := Counters(cp.read.pages + 1, cp.read.records + |page|, cp.read.queued + inserted),
                failureCount := 0, nextAttemptAt := now);
      // The direct cursor and the result token never move together.
      cp := if viaAthena then cp.(nextToken := next, resultsComplete := next.None?) else cp.(page := cp.page + 1);
      checkpoints := checkpoints[item := cp];
      run := run.(read := Counters(run.read.pages + 1, run.read.records + |page|, run.read.queued + inserted));
    }

    /** The counting proof, and the run's final status when it holds. */
    method VerifyAndComplete() returns (ok: bool)
      requires |plan.window| > 0 && run.status.Running?
      modifies this`run
      ensures ok <==> Enabled(plan, old(State()), Step.VerifyAndComplete)
      ensures State() == if ok then Apply(plan, old(State()), Step.VerifyAndComplete) else old(State())
      ensures ok <==> && |receipts| == |plan.items| * |plan.window|
                      && (forall i :: i in checkpoints ==> checkpoints[i].completedThrough == Some(plan.window[|plan.window|-1]))
                      && (forall c :: c in candidates ==> !candidates[c].Pending? && !candidates[c].Retry?)
      ensures ok ==> run == old(run).(status := run.status)
                     && run.status == if forall c :: c in candidates ==> !candidates[c].Unresolved? then RunStatus.Finished
                                      else FinishedWithUnresolved
    {
      var incompletePatterns := |IncompleteRows(plan, checkpoints)|;
      var pending := |OpenCandidates(candidates)|;
      var unresolved := |set c | c in candidates && candidates[c].Unresolved?|;
      ZeroMeansNone(plan, checkpoints, candidates);
      NobodyUnresolved(candidates);
      ok := |receipts| == |plan.items| * |plan.window| && incompletePatterns == 0 && pending == 0;
      if ok {
        run := run.(status := if unresolved == 0 then RunStatus.Finished else FinishedWithUnresolved);
      }
    }

    /** Local scans earn receipts without walking checkpoints: mark every pattern complete in one transaction, or,
        if a single receipt is missing, nothing. */
    method CompleteLocalAuditCheckpoints() returns (ok: bool)
      requires |plan.window| > 0
      modifies this`checkpoints, this`run
      ensures ok <==> forall i, x :: i in plan.items && x in plan.window ==> (i, x) in receipts
      ensures !ok ==> State() == old(State())
      ensures ok ==> checkpoints.Keys == old(checkpoints.Keys) + (set i | i in plan.items)
      ensures ok ==> forall i :: i in plan.items ==>
                checkpoints[i] == LocallyComplete(plan, i, old(checkpoints))
      ensures ok ==> forall i :: i in plan.items ==>
                var target := Some(plan.window[|plan.window|-1]);
                checkpoints[i] == if i in old(checkpoints) then old(checkpoints)[i].(completedThrough := target)
                                  else Checkpoint(plan.window[0], 0, Counters(0, 0, 0), 0, 0, None, None, None, false, target)
      ensures ok ==> forall i :: i in old(checkpoints) && i !in plan.items ==> checkpoints[i] == old(checkpoints[i])
      ensures ok ==> run == old(run).(completedPatterns := |plan.items|)
    {
      var rows := checkpoints;
      var k := 0;
      while k < |plan.items|
        invariant k <= |plan.items|
        invariant forall i, x :: i in plan.items[..k] && x in plan.window ==> (i, x) in receipts
        invariant rows.Keys == checkpoints.Keys + (set i | i in plan.items[..k])
        invariant forall i :: i in plan.items[..k] ==> rows[i] == LocallyComplete(plan, i, checkpoints)
        invariant forall i :: i in checkpoints && i !in plan.items[..k] ==> rows[i] == checkpoints[i]
      {
        var item := plan.items[k];
        var m := 0;
        while m < |plan.window|
          invariant m <= |plan.window|
          invariant forall n :: 0 <= n < m ==> (item, plan.window[n]) in receipts
        {
          if (item, plan.window[m]) !in receipts { return false; }
          m := m + 1;
        }
        assert plan.items[..k+1] == plan.items[..k] + [item];
        rows := rows[item := LocallyComplete(plan, item, checkpoints)];
        k := k + 1;
      }
      assert plan.items[..k] == plan.items;
      checkpoints := rows;
      run := run.(completedPatterns := |plan.items|);
      ok := true;
    }
  }

  /** The upsert of a locally completed checkpoint. */
  function LocallyComplete(p: Plan, item: Item, rows: map<Item, Checkpoint>): Checkpoint
    requires |p.window| > 0
  {
    var row := if item in rows then rows[item] else FreshCheckpoint(p.window[0]);
    row.(completedThrough := Some(Target(p)))
  }
}

/**
 * One quantum of one pattern: what it writes and what it reports, as a function of the world and of how the
 * outside behaves during it. A quantum that is not interrupted is a run of the transition system, so a crash
 * inside it leaves a prefix of that run.
 */
module AuditQuantum {
  import opened Basics
  import opened RetryPolicy
  import opened CooperativeScheduler
  import opened AuditModel
  import opened AuditWalk
  import opened AuditSubmission
  import opened AuditGap

  const ATHENA_POLL_MS: nat := 15_000

  /** How a StartQueryExecution call and the write of its answer end. */
  datatype Call = Refused | AnswerLost | IdWriteUncertain | Saved

  /** What the outside does during one quantum. `settles` is how AWS moved the stored query beforehand;
      `broken` is a thrown error, a failed page, or an unknown query state. */
  datatype Conditions = Conditions(athenaConfigured: bool, settles: Option<QueryStatus>, call: Call, broken: bool, took: nat)

  function Row(p: Plan, db: Database, item: Item): Checkpoint
    requires |p.window| > 0
  {
    if item in db.checkpoints then db.checkpoints[item] else FreshCheckpoint(AuditIndexOrder(p, item.platform)[0])
  }

  predicate UsesAthena(p: Plan, row: Checkpoint, c: Conditions) {
    c.athenaConfigured && p.source.inUrlIndex(row.indexId)
  }

  predicate MaySettle(aws: Aws, e: Execution, status: QueryStatus) {
    && e < |aws.log|
    && (|| (aws.log[e].status.InFlight? && !status.InFlight?)
        || (aws.log[e].status.Succeeded? && status.Doomed?))
  }

  /** AWS as this quantum finds it. */
  function Settled(aws: Aws, row: Checkpoint, c: Conditions): Aws {
    if c.settles.Some? && row.execution.Some? && MaySettle(aws, row.execution.value, c.settles.value)
    then aws.(log := aws.log[row.execution.value := aws.log[row.execution.value].(status := c.settles.value)])
    else aws
  }

  function LastIndex(p: Plan, item: Item, row: Checkpoint): bool
    requires |p.window| > 0
  {
    IndexOf(AuditIndexOrder(p, item.platform), row.indexId) + 1 >= |p.window|
  }

  function RetryAt(row: Checkpoint, now: int): int {
    now + CommonCrawlPageRetryDelay(row.failureCount + 1)
  }

  /** A page is in memory: commit it, or, when it ends the index, earn the receipt. */
  function AfterRead(p: Plan, w: World, item: Item, row: Checkpoint, page: Page, next: Option<nat>, viaAthena: bool, now: int)
      : (World, QuantumResult)
    requires |p.window| > 0 && item in w.db.checkpoints
  {
    if Exhausts(page, next, viaAthena) then
      (w.(db := ReceiptedDb(p, w.db, item, row, now)), if LastIndex(p, item, row) then Complete else Advanced)
    else
      (w.(db := CommittedDb(p, w.db, item, page, next, viaAthena, now)), Advanced)
  }

  function AfterFailure(w: World, item: Item, row: Checkpoint, now: int, restartQuery: bool): (World, QuantumResult)
    requires item in w.db.checkpoints
  {
    (w.(db := FailedDb(w.db, item, row, RetryAt(row, now), restartQuery),
        verdicts := if restartQuery && row.execution.Some? then w.verdicts + {row.execution.value} else w.verdicts),
     Deferred(true, RetryAt(row, now)))
  }

  /** The token is durable before AWS is asked; a token saved earlier is presented again. */
  function TokenFor(w: World, row: Checkpoint): Token {
    if row.token.Some? then row.token.value else w.minted
  }

  function WithToken(w: World, item: Item, row: Checkpoint): World
    requires item in w.db.checkpoints
  {
    if row.token.Some? then w
    else w.(db := WithCheckpoint(w.db, item, w.db.checkpoints[item].(token := Some(w.minted))), minted := w.minted + 1)
  }

  function AfterSubmission(w: World, item: Item, row: Checkpoint, call: Call, now: int): (World, QuantumResult)
    requires item in w.db.checkpoints
  {
    var token := TokenFor(w, row);
    var v := WithToken(w, item, row);
    var held := row.(token := Some(token));
    if call.Refused? then AfterFailure(v, item, held, now, false)
    else
      var (aws, e) := StartQuery(v.aws, token, item, row.indexId);
      var asked := v.(aws := aws);
      if call.AnswerLost? then AfterFailure(asked, item, held, now, false)
      else
        var cp := asked.db.checkpoints[item].(execution := Some(e), nextToken := None, resultsComplete := false,
                                              nextAttemptAt := now + ATHENA_POLL_MS);
        var saved := asked.(db := WithCheckpoint(asked.db, item, cp));
        if call.IdWriteUncertain? then AfterFailure(saved, item, cp, now, false)
        else (saved, Advanced)
  }

  function AfterAthena(p: Plan, w: World, item: Item, row: Checkpoint, c: Conditions, now: int): (World, QuantumResult)
    requires |p.window| > 0 && item in w.db.checkpoints
  {
    if row.resultsComplete then AfterRead(p, w, item, row, [], None, true, now)
    else if row.execution.None? then AfterSubmission(w, item, row, c.call, now)
    else
      var e := row.execution.value;
      if c.broken || e >= |w.aws.log| || Cursor(row) >= |p.source.results(e)| then AfterFailure(w, item, row, now, false)
      else
        match w.aws.log[e].status
        case InFlight =>
          (w.(db := WithCheckpoint(w.db, item, w.db.checkpoints[item].(nextAttemptAt := now + ATHENA_POLL_MS))),
           Deferred(false, now + ATHENA_POLL_MS))
        case Doomed => AfterFailure(w, item, row, now, true)
        case Succeeded =>
          AfterRead(p, w, item, row, p.source.results(e)[Cursor(row)], NextResultToken(p, e, Cursor(row)), true, now)
  }

  function AfterCdx(p: Plan, w: World, item: Item, row: Checkpoint, c: Conditions, now: int): (World, QuantumResult)
    requires |p.window| > 0 && item in w.db.checkpoints
  {
    if c.broken then AfterFailure(w, item, row, now, false)
    else AfterRead(p, w, item, row, CdxPage(p, item, row.indexId, row.page), None, false, now)
  }

  function AfterQuantum(p: Plan, w: World, item: Item, c: Conditions, now: int): (World, QuantumResult)
    requires |p.window| > 0
  {
    var row := Row(p, w.db, item);
    if item in w.db.checkpoints && AuditCheckpointComplete(p, item.platform, row) then (w, Complete)
    else
      var loaded := w.(db := WithCheckpoint(w.db, item, row));
      if now < row.nextAttemptAt then (loaded, Deferred(false, row.nextAttemptAt))
      else if UsesAthena(p, row, c) then
        AfterAthena(p, loaded.(aws := Settled(w.aws, row, c)), item, row, c, now)
      else AfterCdx(p, loaded, item, row, c, now)
  }

  // ----- a quantum is a run -----

  ghost function ReadSteps(page: Page, next: Option<nat>, viaAthena: bool, now: int): seq<Step> {
    [if viaAthena then ReadAthena else ReadCdx,
     if Exhausts(page, next, viaAthena) then EarnReceipt(now) else CommitPage(now)]
  }

  ghost function SubmissionSteps(row: Checkpoint, call: Call, now: int): seq<Step> {
    var token := if row.token.Some? then ReuseToken else SaveToken;
    match call
    case Refused => [token, LoseCall, RecordFailure(RetryAt(row, now))]
    case AnswerLost => [token, CallAws, LoseCall, RecordFailure(RetryAt(row, now))]
    case IdWriteUncertain => [token, CallAws, SaveExecution(now + ATHENA_POLL_MS, false), RecordFailure(RetryAt(row, now))]
    case Saved => [token, CallAws, SaveExecution(now + ATHENA_POLL_MS, true)]
  }

  ghost function AthenaSteps(p: Plan, w: World, row: Checkpoint, c: Conditions, now: int): seq<Step> {
    if row.resultsComplete then ReadSteps([], None, true, now)
    else if row.execution.None? then SubmissionSteps(row, c.call, now)
    else
      var e := row.execution.value;
      if c.broken || e >= |w.aws.log| || Cursor(row) >= |p.source.results(e)|
      then [SourceFails, RecordFailure(RetryAt(row, now))]
      else match w.aws.log[e].status
        case InFlight => [KeepWaiting(now + ATHENA_POLL_MS)]
        case Doomed => [ObserveDoomed, RecordFailure(RetryAt(row, now))]
        case Succeeded => ReadSteps(p.source.results(e)[Cursor(row)], NextResultToken(p, e, Cursor(row)), true, now)
  }

  ghost function SettleSteps(aws: Aws, row: Checkpoint, c: Conditions): seq<Step> {
    if Settled(aws, row, c) != aws then [Settle(row.execution.value, c.settles.value)] else []
  }

  ghost function QuantumSteps(p: Plan, w: World, item: Item, c: Conditions, now: int): seq<Step>
    requires |p.window| > 0
  {
    var row := Row(p, w.db, item);
    if item in w.db.checkpoints && AuditCheckpointComplete(p, item.platform, row) then []
    else if now < row.nextAttemptAt then [Load(item), Crash]
    else if UsesAthena(p, row, c) then
      SettleSteps(w.aws, row, c) + [Load(item)] + AthenaSteps(p, w.(aws := Settled(w.aws, row, c)), row, c, now)
    else [Load(item)] + if c.broken then [SourceFails, RecordFailure(RetryAt(row, now))]
                        else ReadSteps(CdxPage(p, item, row.indexId, row.page), None, false, now)
  }

  /** `steps` lead from `w` to `v`. */
  ghost predicate Leads(p: Plan, w: World, steps: seq<Step>, v: World)
    requires |p.window| > 0
  {
    CanRun(p, w, steps) && RunSteps(p, w, steps) == v
  }

  lemma LeadsStep(p: Plan, w: World, s: Step, rest: seq<Step>, v: World)
    requires |p.window| > 0 && Enabled(p, w, s) && Leads(p, Apply(p, w, s), rest, v)
    ensures Leads(p, w, [s] + rest, v)
  {
    assert ([s] + rest)[1..] == rest;
    hide Enabled, Apply;
  }

  lemma LeadsNowhere(p: Plan, w: World)
    requires |p.window| > 0
    ensures Leads(p, w, [], w)
  {}

  lemma Leads1(p: Plan, w: World, s: Step)
    requires |p.window| > 0 && Enabled(p, w, s)
    ensures Leads(p, w, [s], Apply(p, w, s))
  {
    hide Enabled, Apply;
    LeadsNowhere(p, Apply(p, w, s));
    LeadsStep(p, w, s, [], Apply(p, w, s));
    assert [s] + [] == [s];
  }

  lemma Leads2(p: Plan, w: World, s: Step, t: Step)
    requires |p.window| > 0 && Enabled(p, w, s) && Enabled(p, Apply(p, w, s), t)
    ensures Leads(p, w, [s, t], Apply(p, Apply(p, w, s), t))
  {
    hide Enabled, Apply;
    Leads1(p, Apply(p, w, s), t);
    LeadsStep(p, w, s, [t], Apply(p, Apply(p, w, s), t));
    assert [s] + [t] == [s, t];
  }

  /** The worker has just loaded the row. */
  function AtWork(w: World, item: Item, row: Checkpoint): World {
    w.(db := WithCheckpoint(w.db, item, row), worker := Loaded(item, row))
  }

  lemma ReadLeads(p: Plan, w: World, item: Item, row: Checkpoint, page: Page, next: Option<nat>, viaAthena: bool, now: int)
    requires |p.window| > 0 && item in w.db.checkpoints && w.db.checkpoints[item] == row && w.worker.Idle?
    requires if viaAthena then
        Enabled(p, AtWork(w, item, row), ReadAthena)
        && Apply(p, AtWork(w, item, row), ReadAthena).worker == Fetched(item, row, page, next, true)
      else page == CdxPage(p, item, row.indexId, row.page) && next.None?
    ensures Leads(p, AtWork(w, item, row), ReadSteps(page, next, viaAthena, now),
                  AfterRead(p, w, item, row, page, next, viaAthena, now).0)
  {
    hide CandidatesOf, WithCandidates, CommittedDb, ReceiptedDb;
    var v := AtWork(w, item, row);
    assert v.db == w.db by { assert v.db.checkpoints == w.db.checkpoints; }
    var s := if viaAthena then ReadAthena else ReadCdx;
    var u := Apply(p, v, s);
    assert u == w.(worker := Fetched(item, row, page, next, viaAthena));
    if Exhausts(page, next, viaAthena) { Leads2(p, v, s, EarnReceipt(now)); } else { Leads2(p, v, s, CommitPage(now)); }
  }

  lemma FailureLeads(p: Plan, w: World, item: Item, row: Checkpoint, now: int, restartQuery: bool)
    requires |p.window| > 0 && item in w.db.checkpoints && w.worker.Idle?
    ensures Leads(p, w.(worker := Failed(item, row, restartQuery)), [RecordFailure(RetryAt(row, now))],
                  AfterFailure(w, item, row, now, restartQuery).0)
  {
    hide FailedDb, RetryAt;
    Leads1(p, w.(worker := Failed(item, row, restartQuery)), RecordFailure(RetryAt(row, now)));
  }

  lemma SourceFailureLeads(p: Plan, w: World, item: Item, row: Checkpoint, now: int)
    requires |p.window| > 0 && item in w.db.checkpoints && w.db.checkpoints[item] == row && w.worker.Idle?
    ensures Leads(p, AtWork(w, item, row), [SourceFails, RecordFailure(RetryAt(row, now))], AfterFailure(w, item, row, now, false).0)
  {
    hide RetryAt, AfterFailure;
    var v := AtWork(w, item, row);
    assert v.db.checkpoints == w.db.checkpoints;
    assert Apply(p, v, SourceFails) == w.(worker := Failed(item, row, false));
    FailureLeads(p, w, item, row, now, false);
    LeadsStep(p, v, SourceFails, [RecordFailure(RetryAt(row, now))], AfterFailure(w, item, row, now, false).0);
    assert [SourceFails] + [RecordFailure(RetryAt(row, now))] == [SourceFails, RecordFailure(RetryAt(row, now))];
  }

  lemma DoomedLeads(p: Plan, w: World, item: Item, row: Checkpoint, now: int)
    requires |p.window| > 0 && item in w.db.checkpoints && w.db.checkpoints[item] == row && w.worker.Idle?
    requires !row.resultsComplete && row.execution.Some? && row.execution.value < |w.aws.log|
    requires w.aws.log[row.execution.value].status.Doomed?
    ensures Leads(p, AtWork(w, item, row), [ObserveDoomed, RecordFailure(RetryAt(row, now))], AfterFailure(w, item, row, now, true).0)
  {
    hide RetryAt, AfterFailure;
    var v := AtWork(w, item, row);
    assert v.db.checkpoints == w.db.checkpoints;
    assert Apply(p, v, ObserveDoomed) == w.(worker := Failed(item, row, true));
    FailureLeads(p, w, item, row, now, true);
    LeadsStep(p, v, ObserveDoomed, [RecordFailure(RetryAt(row, now))], AfterFailure(w, item, row, now, true).0);
    assert [ObserveDoomed] + [RecordFailure(RetryAt(row, now))] == [ObserveDoomed, RecordFailure(RetryAt(row, now))];
  }

  /** After the token step the worker holds a durable token and the world is `WithToken`. */
  lemma TokenLeads(p: Plan, w: World, item: Item, row: Checkpoint, rest: seq<Step>, end: World)
    requires |p.window| > 0 && item in w.db.checkpoints && w.db.checkpoints[item] == row && w.worker.Idle?
    requires !row.resultsComplete && row.execution.None? && p.source.inUrlIndex(row.indexId)
    requires Leads(p, WithToken(w, item, row).(worker := TokenSaved(item, row.(token := Some(TokenFor(w, row))))), rest, end)
    ensures Leads(p, AtWork(w, item, row), [if row.token.Some? then ReuseToken else SaveToken] + rest, end)
  {
    var v := AtWork(w, item, row);
    assert v.db.checkpoints == w.db.checkpoints;
    var s := if row.token.Some? then ReuseToken else SaveToken;
    assert Apply(p, v, s) == WithToken(w, item, row).(worker := TokenSaved(item, row.(token := Some(TokenFor(w, row)))));
    LeadsStep(p, v, s, rest, end);
  }

  lemma SubmissionLeads(p: Plan, w: World, item: Item, row: Checkpoint, call: Call, now: int)
    requires |p.window| > 0 && item in w.db.checkpoints && w.db.checkpoints[item] == row && w.worker.Idle?
    requires !row.resultsComplete && row.execution.None? && p.source.inUrlIndex(row.indexId)
    ensures Leads(p, AtWork(w, item, row), SubmissionSteps(row, call, now), AfterSubmission(w, item, row, call, now).0)
  {
    var held := row.(token := Some(TokenFor(w, row)));
    var v := WithToken(w, item, row);
    var ready := v.(worker := TokenSaved(item, held));
    var end := AfterSubmission(w, item, row, call, now).0;
    var tokenStep := if row.token.Some? then ReuseToken else SaveToken;
    var rest := SubmissionSteps(row, call, now)[1..];
    assert SubmissionSteps(row, call, now) == [tokenStep] + rest;
    assert Leads(p, ready, rest, end) by { CallLeads(p, v, item, row, held, call, now, end); }
    hide *;
    TokenLeads(p, w, item, row, rest, end);
  }

  lemma CallLeads(p: Plan, v: World, item: Item, row: Checkpoint, held: Checkpoint, call: Call, now: int, end: World)
    requires |p.window| > 0 && item in v.db.checkpoints && v.worker.Idle? && held.token.Some?
    requires held == row.(token := held.token)
    requires end ==
      if call.Refused? then AfterFailure(v, item, held, now, false).0
      else
        var (aws, e) := StartQuery(v.aws, held.token.value, item, row.indexId);
        var asked := v.(aws := aws);
        if call.AnswerLost? then AfterFailure(asked, item, held, now, false).0
        else
          var cp := asked.db.checkpoints[item].(execution := Some(e), nextToken := None, resultsComplete := false,
                                                nextAttemptAt := now + ATHENA_POLL_MS);
          var saved := asked.(db := WithCheckpoint(asked.db, item, cp));
          if call.IdWriteUncertain? then AfterFailure(saved, item, cp, now, false).0 else saved
    requires call.IdWriteUncertain? ==> v.db.checkpoints[item].failureCount == row.failureCount
    ensures Leads(p, v.(worker := TokenSaved(item, held)), SubmissionSteps(row, call, now)[1..], end)
  {
    hide AfterFailure;
    var ready := v.(worker := TokenSaved(item, held));
    var fail := RecordFailure(RetryAt(row, now));
    if call.Refused? {
      FailureLeads(p, v, item, held, now, false);
      LeadsStep(p, ready, LoseCall, [fail], end);
      assert SubmissionSteps(row, call, now)[1..] == [LoseCall] + [fail];
    } else {
      var (aws, e) := StartQuery(v.aws, held.token.value, item, row.indexId);
      var asked := v.(aws := aws);
      var answered := asked.(worker := Accepted(item, held, e));
      assert Apply(p, ready, CallAws) == answered;
      if call.AnswerLost? {
        FailureLeads(p, asked, item, held, now, false);
        LeadsStep(p, answered, LoseCall, [fail], end);
        LeadsStep(p, ready, CallAws, [LoseCall] + [fail], end);
        assert SubmissionSteps(row, call, now)[1..] == [CallAws] + ([LoseCall] + [fail]);
      } else {
        var cp := asked.db.checkpoints[item].(execution := Some(e), nextToken := None, resultsComplete := false,
                                              nextAttemptAt := now + ATHENA_POLL_MS);
        var saved := asked.(db := WithCheckpoint(asked.db, item, cp));
        var save := SaveExecution(now + ATHENA_POLL_MS, call.Saved?);
        if call.IdWriteUncertain? {
          FailureLeads(p, saved, item, cp, now, false);
          LeadsStep(p, answered, save, [fail], end);
          LeadsStep(p, ready, CallAws, [save] + [fail], end);
          assert SubmissionSteps(row, call, now)[1..] == [CallAws] + ([save] + [fail]);
        } else {
          Leads1(p, answered, save);
          LeadsStep(p, ready, CallAws, [save], end);
          assert SubmissionSteps(row, call, now)[1..] == [CallAws] + [save];
        }
      }
    }
  }

  lemma AthenaLeads(p: Plan, w: World, item: Item, row: Checkpoint, c: Conditions, now: int)
    requires |p.window| > 0 && item in w.db.checkpoints && w.db.checkpoints[item] == row && w.worker.Idle?
    requires p.source.inUrlIndex(row.indexId)
    ensures Leads(p, AtWork(w, item, row), AthenaSteps(p, w, row, c, now), AfterAthena(p, w, item, row, c, now).0)
  {
    hide Leads, AfterFailure, AfterRead, AfterSubmission, SubmissionSteps, RetryAt, ReadSteps;
    if row.resultsComplete {
      ReadLeads(p, w, item, row, [], None, true, now);
    } else if row.execution.None? {
      SubmissionLeads(p, w, item, row, c.call, now);
    } else {
      var e := row.execution.value;
      if c.broken || e >= |w.aws.log| || Cursor(row) >= |p.source.results(e)| {
        SourceFailureLeads(p, w, item, row, now);
      } else if w.aws.log[e].status.InFlight? {
        WaitLeads(p, w, item, row, now);
      } else if w.aws.log[e].status.Doomed? {
        DoomedLeads(p, w, item, row, now);
      } else {
        ReadLeads(p, w, item, row, p.source.results(e)[Cursor(row)], NextResultToken(p, e, Cursor(row)), true, now);
      }
    }
  }

  lemma SameAthenaSteps(p: Plan, u: World, v: World, row: Checkpoint, c: Conditions, now: int)
    requires u.aws == v.aws
    ensures AthenaSteps(p, u, row, c, now) == AthenaSteps(p, v, row, c, now)
  {}

  lemma WaitLeads(p: Plan, w: World, item: Item, row: Checkpoint, now: int)
    requires |p.window| > 0 && item in w.db.checkpoints && w.db.checkpoints[item] == row && w.worker.Idle?
    requires !row.resultsComplete && row.execution.Some? && row.execution.value < |w.aws.log|
    requires w.aws.log[row.execution.value].status.InFlight?
    ensures Leads(p, AtWork(w, item, row), [KeepWaiting(now + ATHENA_POLL_MS)],
      w.(db := WithCheckpoint(w.db, item, w.db.checkpoints[item].(nextAttemptAt := now + ATHENA_POLL_MS))))
  {
    var v := AtWork(w, item, row);
    assert v.db.checkpoints == w.db.checkpoints;
    Leads1(p, v, KeepWaiting(now + ATHENA_POLL_MS));
  }

  lemma LoadLeads(p: Plan, w: World, item: Item, rest: seq<Step>, end: World)
    requires |p.window| > 0 && item in p.items && w.worker.Idle? && w.db.run.status.Running?
    requires item in w.db.checkpoints ==> !AuditCheckpointComplete(p, item.platform, w.db.checkpoints[item])
    requires Leads(p, AtWork(w, item, Row(p, w.db, item)), rest, end)
    ensures Leads(p, w, [Load(item)] + rest, end)
  {
    hide AuditCheckpointComplete, AuditIndexOrder;
    assert Apply(p, w, Load(item)) == AtWork(w, item, Row(p, w.db, item));
    LeadsStep(p, w, Load(item), rest, end);
  }

  lemma SettleLeads(p: Plan, w: World, row: Checkpoint, c: Conditions, rest: seq<Step>, end: World)
    requires |p.window| > 0 && Leads(p, w.(aws := Settled(w.aws, row, c)), rest, end)
    ensures Leads(p, w, SettleSteps(w.aws, row, c) + rest, end)
  {
    if Settled(w.aws, row, c) != w.aws {
      var s := Settle(row.execution.value, c.settles.value);
      assert Apply(p, w, s) == w.(aws := Settled(w.aws, row, c));
      LeadsStep(p, w, s, rest, end);
    } else {
      assert w.(aws := w.aws) == w;
      assert [] + rest == rest;
    }
  }

  lemma ColdLeads(p: Plan, w: World, item: Item)
    requires |p.window| > 0 && item in p.items && w.worker.Idle? && w.db.run.status.Running?
    requires item in w.db.checkpoints ==> !AuditCheckpointComplete(p, item.platform, w.db.checkpoints[item])
    ensures Leads(p, w, [Load(item), Crash], w.(db := WithCheckpoint(w.db, item, Row(p, w.db, item))))
  {
    hide AuditCheckpointComplete, AuditIndexOrder;
    Leads2(p, w, Load(item), Crash);
  }

  /** Writing the row it has just read changes nothing the worker sees. */
  lemma AtWorkAgain(w: World, item: Item, row: Checkpoint)
    ensures AtWork(w.(db := WithCheckpoint(w.db, item, row)), item, row) == AtWork(w, item, row)
  {
    assert w.db.checkpoints[item := row][item := row] == w.db.checkpoints[item := row];
  }

  /** The quantum has a row that is not complete and may be contacted. */
  ghost predicate Contacting(p: Plan, w: World, item: Item, now: int)
    requires |p.window| > 0
  {
    && item in p.items && w.worker.Idle? && w.db.run.status.Running?
    && (item in w.db.checkpoints ==> !AuditCheckpointComplete(p, item.platform, w.db.checkpoints[item]))
    && Row(p, w.db, item).nextAttemptAt <= now
  }

  lemma CdxQuantumLeads(p: Plan, w: World, item: Item, c: Conditions, now: int)
    requires |p.window| > 0 && Contacting(p, w, item, now) && !UsesAthena(p, Row(p, w.db, item), c)
    ensures Leads(p, w, QuantumSteps(p, w, item, c, now), AfterQuantum(p, w, item, c, now).0)
  {
    hide Leads, AuditCheckpointComplete, AuditIndexOrder, CdxPage, RetryAt, AfterFailure, AfterRead, ReadSteps;
    var row := Row(p, w.db, item);
    var u := w.(db := WithCheckpoint(w.db, item, row));
    AtWorkAgain(w, item, row);
    var page := CdxPage(p, item, row.indexId, row.page);
    if c.broken {
      SourceFailureLeads(p, u, item, row, now);
      LoadLeads(p, w, item, [SourceFails, RecordFailure(RetryAt(row, now))], AfterFailure(u, item, row, now, false).0);
    } else {
      ReadLeads(p, u, item, row, page, None, false, now);
      LoadLeads(p, w, item, ReadSteps(page, None, false, now), AfterRead(p, u, item, row, page, None, false, now).0);
    }
  }

  lemma AthenaQuantumLeads(p: Plan, w: World, item: Item, c: Conditions, now: int)
    requires |p.window| > 0 && Contacting(p, w, item, now) && UsesAthena(p, Row(p, w.db, item), c)
    ensures Leads(p, w, QuantumSteps(p, w, item, c, now), AfterQuantum(p, w, item, c, now).0)
  {
    hide Leads, AuditCheckpointComplete, AuditIndexOrder, AthenaSteps, AfterAthena, Settled;
    var row := Row(p, w.db, item);
    var v := w.(aws := Settled(w.aws, row, c));
    var u := v.(db := WithCheckpoint(v.db, item, row));
    AtWorkAgain(v, item, row);
    AthenaLeads(p, u, item, row, c, now);
    SameAthenaSteps(p, u, v, row, c, now);
    var rest, end := AthenaSteps(p, v, row, c, now), AfterAthena(p, u, item, row, c, now).0;
    LoadLeads(p, v, item, rest, end);
    SettleLeads(p, w, row, c, [Load(item)] + rest, end);
    var settle := SettleSteps(w.aws, row, c);
    assert settle + ([Load(item)] + rest) == settle + [Load(item)] + rest;
  }

  /** An uninterrupted quantum is a run of the transition system: the world `AfterQuantum` gives is reached by the
      steps `QuantumSteps` lists, so every guarantee about runs holds of the program's own quanta. */
  lemma QuantumIsARun(p: Plan, w: World, item: Item, c: Conditions, now: int)
    requires |p.window| > 0 && item in p.items && w.worker.Idle? && w.db.run.status.Running?
    ensures CanRun(p, w, QuantumSteps(p, w, item, c, now))
    ensures RunSteps(p, w, QuantumSteps(p, w, item, c, now)) == AfterQuantum(p, w, item, c, now).0
  {
    hide AuditIndexOrder, UsesAthena, Settled, AfterAthena, AfterCdx, AthenaSteps, ReadSteps, RetryAt;
    var row := Row(p, w.db, item);
    if item in w.db.checkpoints && AuditCheckpointComplete(p, item.platform, row) {
      LeadsNowhere(p, w);
    } else if now < row.nextAttemptAt {
      ColdLeads(p, w, item);
    } else if UsesAthena(p, row, c) {
      AthenaQuantumLeads(p, w, item, c, now);
    } else {
      CdxQuantumLeads(p, w, item, c, now);
    }
  }
}

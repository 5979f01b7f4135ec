/**
 * The resumable Common Crawl audit as a transition system.
 *
 * A `World` is the database, what AWS holds, and the memory of the one worker that owns the discovery
 * lock. Every `$transaction` and every single database write is one step, every call to AWS is one step,
 * and a crash may fall between any two of them: it empties the worker's memory and touches nothing else.
 * The crawl sources are oracles, fixed in the `Plan`.
 */
module AuditModel {
  import opened Basics

  datatype Name = Name(text: string)
  type Platform = Name
  type IndexId = Name
  type Url = Name
  type Slug = Name
  type Token = nat
  type Execution = nat // position in the log of everything AWS ever started

  /** One configured URL pattern of one platform. */
  datatype Item = Item(platform: Platform, pattern: Name)

  /** A record carries a URL or something that is not one. */
  type Page = seq<Option<Url>>

  datatype Source = Source(
    cdx: (Item, IndexId) -> seq<Page>,               // the pages the direct API holds
    results: Execution -> seq<Page>,                 // the result pages of a succeeded query
    extractSlug: (Platform, Url) -> Option<Slug>,
    inUrlIndex: IndexId -> bool)                     // whether Athena knows this collection

  /** What one run has to cover: its patterns and its window of indexes, oldest first. */
  datatype Plan = Plan(items: seq<Item>, window: seq<IndexId>, newestFirst: Platform -> bool, source: Source)

  // ----- the database -----

  datatype Counters = Counters(pages: nat, records: nat, queued: nat)
  {
    function Plus(c: Counters): Counters {
      Counters(pages + c.pages, records + c.records, queued + c.queued)
    }
  }
  const ZERO := Counters(0, 0, 0)

  datatype Checkpoint = Checkpoint(
    indexId: IndexId, page: nat, read: Counters, failureCount: nat, nextAttemptAt: int,
    execution: Option<Execution>, token: Option<Token>, nextToken: Option<nat>, resultsComplete: bool,
    completedThrough: Option<IndexId>)

  datatype Status = Pending | Retry | Active | Existing | Parked | Retired | Unresolved | DiscoveredWaiting
  {
    predicate Open() { Pending? || Retry? }
  }

  /** Spelling is significant, so a candidate is a platform and an exact slug. */
  datatype Candidate = Candidate(platform: Platform, slug: Slug)

  datatype RunStatus = Running | Finished | FinishedWithUnresolved
  datatype Run = Run(read: Counters, completedPatterns: nat, status: RunStatus)

  datatype Database = Database(
    checkpoints: map<Item, Checkpoint>,
    receipts: map<(Item, IndexId), Counters>,
    candidates: map<Candidate, Status>,
    run: Run)

  // ----- AWS -----

  /** A failed or cancelled query, or one whose managed results expired, is doomed. */
  datatype QueryStatus = InFlight | Succeeded | Doomed
  datatype Query = Query(item: Item, indexId: IndexId, status: QueryStatus)

  /** AWS keeps one execution per request token, however often the token is presented. */
  datatype Aws = Aws(holds: map<Token, Execution>, log: seq<Query>)

  // ----- the worker -----

  datatype Worker =
    | Idle
    | Loaded(item: Item, seen: Checkpoint)
    | TokenSaved(item: Item, seen: Checkpoint)
    | Accepted(item: Item, seen: Checkpoint, execution: Execution)
    | Fetched(item: Item, seen: Checkpoint, page: Page, next: Option<nat>, viaAthena: bool)
    | Failed(item: Item, seen: Checkpoint, restartQuery: bool)

  datatype World = World(
    db: Database, aws: Aws, worker: Worker,
    minted: nat,                  // request tokens drawn so far; each is new
    verdicts: set<Execution>)     // executions whose failure or expiry was verified and acted on

  // ----- the walk over the window -----

  function AuditIndexOrder(p: Plan, platform: Platform): (order: seq<IndexId>)
    ensures |order| == |p.window|
  {
    if p.newestFirst(platform) then Reverse(p.window) else p.window
  }

  function Target(p: Plan): IndexId
    requires |p.window| > 0
  {
    p.window[|p.window| - 1]
  }

  /** A well-formed plan: patterns and indexes are listed once, there is a target, and a succeeded query
      has at least one result page. */
  ghost predicate Good(p: Plan) {
    && Distinct(p.items) && Distinct(p.window) && |p.window| > 0
    && forall e :: |p.source.results(e)| > 0
  }

  predicate CompletedThroughTarget(p: Plan, cp: Checkpoint)
    requires |p.window| > 0
  {
    cp.completedThrough == Some(Target(p))
  }

  predicate AuditCheckpointComplete(p: Plan, platform: Platform, cp: Checkpoint)
    requires |p.window| > 0
  {
    var order := AuditIndexOrder(p, platform);
    cp.indexId == order[|order| - 1] && CompletedThroughTarget(p, cp)
  }

  function FreshCheckpoint(indexId: IndexId): Checkpoint {
    Checkpoint(indexId, 0, ZERO, 0, 0, None, None, None, false, None)
  }

  // ----- what a page contributes -----

  function SlugOf(p: Plan, platform: Platform, record: Option<Url>): Option<Slug> {
    if record.None? then None
    else
      var slug := p.source.extractSlug(platform, record.value);
      if slug == Some(Name("")) then None else slug
  }

  function CandidatesOf(p: Plan, platform: Platform, page: Page): set<Candidate> {
    set r | r in page && SlugOf(p, platform, r).Some? :: Candidate(platform, SlugOf(p, platform, r).value)
  }

  /** `createMany` with `skipDuplicates`: rows already there keep their status. */
  function WithCandidates(rows: map<Candidate, Status>, found: set<Candidate>): map<Candidate, Status> {
    map c | c in rows.Keys + found :: if c in rows then rows[c] else Pending
  }

  function CdxPage(p: Plan, item: Item, indexId: IndexId, page: nat): Page {
    var pages := p.source.cdx(item, indexId);
    if page < |pages| then pages[page] else []
  }

  /** Where the stored result token points. */
  function Cursor(cp: Checkpoint): nat {
    if cp.nextToken.Some? then cp.nextToken.value else 0
  }

  function NextResultToken(p: Plan, e: Execution, cursor: nat): Option<nat> {
    if cursor + 1 < |p.source.results(e)| then Some(cursor + 1) else None
  }

  // ----- steps -----

  datatype Step =
    | Load(item: Item)                          // upsert of the checkpoint row
    | SaveToken                                 // the request token becomes durable before AWS is contacted
    | ReuseToken                                // an earlier token is already durable
    | CallAws                                   // StartQueryExecution is accepted
    | LoseCall                                  // the call is refused, its answer is lost, or the id is not saved
    | SaveExecution(retryAt: int, acknowledged: bool)
    | KeepWaiting(retryAt: int)                 // the query is queued or running
    | SourceFails                               // a thrown error, a failed page, or an unknown state
    | ObserveDoomed                             // verified FAILED, CANCELLED or expired
    | ReadAthena
    | ReadCdx
    | RecordFailure(retryAt: int)
    | CommitPage(now: int)
    | EarnReceipt(now: int)
    | Crash                                     // or simply the end of a quantum that wrote nothing
    | Settle(execution: Execution, status: QueryStatus)
    | Classify(candidate: Candidate, outcome: Status)
    | VerifyAndComplete

  /** A page ends the index when it is empty and the source gave no continuation. */
  predicate Exhausts(page: Page, next: Option<nat>, viaAthena: bool) {
    page == [] && (!viaAthena || next.None?)
  }

  predicate ProofComplete(p: Plan, db: Database)
    requires |p.window| > 0
  {
    && |db.receipts| == |p.items| * |p.window|
    && (forall i :: i in db.checkpoints ==> CompletedThroughTarget(p, db.checkpoints[i]))
    && (forall c :: c in db.candidates ==> !db.candidates[c].Open())
  }

  predicate Enabled(p: Plan, w: World, s: Step)
    requires |p.window| > 0
  {
    match s
    case Load(item) => w.worker.Idle? && item in p.items && w.db.run.status.Running?
      && (item in w.db.checkpoints ==> !AuditCheckpointComplete(p, item.platform, w.db.checkpoints[item]))
    case SaveToken => w.worker.Loaded? && w.worker.item in w.db.checkpoints
      && !w.worker.seen.resultsComplete && w.worker.seen.execution.None? && w.worker.seen.token.None?
      && p.source.inUrlIndex(w.worker.seen.indexId)
    case ReuseToken => w.worker.Loaded? && !w.worker.seen.resultsComplete
      && w.worker.seen.execution.None? && w.worker.seen.token.Some?
      && p.source.inUrlIndex(w.worker.seen.indexId)
    case CallAws => w.worker.TokenSaved? && w.worker.seen.token.Some?
    case LoseCall => w.worker.TokenSaved? || w.worker.Accepted?
    case SaveExecution(_, _) => w.worker.Accepted? && w.worker.item in w.db.checkpoints
    case KeepWaiting(_) => w.worker.Loaded? && w.worker.item in w.db.checkpoints && !w.worker.seen.resultsComplete
      && w.worker.seen.execution.Some? && w.worker.seen.execution.value < |w.aws.log|
      && w.aws.log[w.worker.seen.execution.value].status.InFlight?
    case SourceFails => w.worker.Loaded?
    case ObserveDoomed => w.worker.Loaded? && !w.worker.seen.resultsComplete
      && w.worker.seen.execution.Some? && w.worker.seen.execution.value < |w.aws.log|
      && w.aws.log[w.worker.seen.execution.value].status.Doomed?
    case ReadAthena => w.worker.Loaded?
      && (w.worker.seen.resultsComplete
          || (w.worker.seen.execution.Some? && w.worker.seen.execution.value < |w.aws.log|
              && w.aws.log[w.worker.seen.execution.value].status.Succeeded?
              && Cursor(w.worker.seen) < |p.source.results(w.worker.seen.execution.value)|))
    case ReadCdx => w.worker.Loaded?
    case RecordFailure(_) => w.worker.Failed? && w.worker.item in w.db.checkpoints
    case CommitPage(_) => w.worker.Fetched? && w.worker.item in w.db.checkpoints
      && !Exhausts(w.worker.page, w.worker.next, w.worker.viaAthena)
    case EarnReceipt(_) => w.worker.Fetched? && w.worker.item in w.db.checkpoints
      && Exhausts(w.worker.page, w.worker.next, w.worker.viaAthena)
    case Crash => true
    case Settle(e, status) => e < |w.aws.log|
      && (|| (w.aws.log[e].status.InFlight? && !status.InFlight?)
          || (w.aws.log[e].status.Succeeded? && status.Doomed?))
    case Classify(c, status) => c in w.db.candidates && w.db.candidates[c].Open() && !status.Pending?
    case VerifyAndComplete => w.worker.Idle? && w.db.run.status.Running? && ProofComplete(p, w.db)
  }

  function WithCheckpoint(db: Database, item: Item, cp: Checkpoint): Database {
    db.(checkpoints := db.checkpoints[item := cp])
  }

  function StartQuery(aws: Aws, token: Token, item: Item, indexId: IndexId): (Aws, Execution) {
    if token in aws.holds then (aws, aws.holds[token])
    else (Aws(aws.holds[token := |aws.log|], aws.log + [Query(item, indexId, InFlight)]), |aws.log|)
  }

  function FailedCheckpoint(cp: Checkpoint, failureCount: nat, retryAt: int, restartQuery: bool): Checkpoint {
    var next := cp.(failureCount := failureCount, nextAttemptAt := retryAt);
    if restartQuery
    then next.(execution := None, token := None, nextToken := None, resultsComplete := false)
    else next
  }

  function AfterPage(cp: Checkpoint, delta: Counters, next: Option<nat>, viaAthena: bool, now: int): Checkpoint {
    var counted := cp.(read := cp.read.Plus(delta), failureCount := 0, nextAttemptAt := now);
    if viaAthena then counted.(nextToken := next, resultsComplete := next.None?)
    else counted.(page := counted.page + 1)
  }

  function AfterReceipt(p: Plan, item: Item, cp: Checkpoint, now: int): Checkpoint
    requires |p.window| > 0
  {
    var order := AuditIndexOrder(p, item.platform);
    var position := IndexOf(order, cp.indexId);
    if position + 1 >= |order| then
      cp.(completedThrough := Some(Target(p)), failureCount := 0, nextAttemptAt := now)
    else
      FreshCheckpoint(order[position + 1]).(
        nextAttemptAt := now,
        completedThrough := if p.newestFirst(item.platform) then None else Some(cp.indexId))
  }

  /** Candidates, cursor and counters of one page, in one transaction. */
  function CommittedDb(p: Plan, db: Database, item: Item, page: Page, next: Option<nat>, viaAthena: bool, now: int): Database
    requires item in db.checkpoints
  {
    var found := CandidatesOf(p, item.platform, page);
    var delta := Counters(1, |page|, |found - db.candidates.Keys|);
    WithCheckpoint(db, item, AfterPage(db.checkpoints[item], delta, next, viaAthena, now)).(
      candidates := WithCandidates(db.candidates, found),
      run := db.run.(read := db.run.read.Plus(delta)))
  }

  /** The receipt of an exhausted index and the checkpoint's next place, in one transaction. */
  function ReceiptedDb(p: Plan, db: Database, item: Item, seen: Checkpoint, now: int): Database
    requires |p.window| > 0 && item in db.checkpoints
  {
    var key := (item, seen.indexId);
    var order := AuditIndexOrder(p, item.platform);
    var isTarget := IndexOf(order, seen.indexId) + 1 >= |order|;
    WithCheckpoint(db, item, AfterReceipt(p, item, db.checkpoints[item], now)).(
      receipts := if key in db.receipts then db.receipts else db.receipts[key := seen.read],
      run := if isTarget then db.run.(completedPatterns := db.run.completedPatterns + 1) else db.run)
  }

  function FailedDb(db: Database, item: Item, seen: Checkpoint, retryAt: int, restartQuery: bool): Database
    requires item in db.checkpoints
  {
    WithCheckpoint(db, item, FailedCheckpoint(db.checkpoints[item], seen.failureCount + 1, retryAt, restartQuery))
  }

  function UnresolvedCount(db: Database): nat {
    |set c | c in db.candidates && db.candidates[c].Unresolved?|
  }

  function Apply(p: Plan, w: World, s: Step): World
    requires |p.window| > 0 && Enabled(p, w, s)
  {
    match s
    case Load(item) =>
      var cp := if item in w.db.checkpoints then w.db.checkpoints[item]
                else FreshCheckpoint(AuditIndexOrder(p, item.platform)[0]);
      w.(db := WithCheckpoint(w.db, item, cp), worker := Loaded(item, cp))
    case SaveToken =>
      var cp := w.db.checkpoints[w.worker.item].(token := Some(w.minted));
      w.(db := WithCheckpoint(w.db, w.worker.item, cp), minted := w.minted + 1,
         worker := TokenSaved(w.worker.item, w.worker.seen.(token := Some(w.minted))))
    case ReuseToken => w.(worker := TokenSaved(w.worker.item, w.worker.seen))
    case CallAws =>
      var (aws, e) := StartQuery(w.aws, w.worker.seen.token.value, w.worker.item, w.worker.seen.indexId);
      w.(aws := aws, worker := Accepted(w.worker.item, w.worker.seen, e))
    case LoseCall => w.(worker := Failed(w.worker.item, w.worker.seen, false))
    case SaveExecution(retryAt, acknowledged) =>
      var cp := w.db.checkpoints[w.worker.item].(execution := Some(w.worker.execution), nextToken := None,
                                                 resultsComplete := false, nextAttemptAt := retryAt);
      w.(db := WithCheckpoint(w.db, w.worker.item, cp),
         worker := if acknowledged then Idle else Failed(w.worker.item, cp, false))
    case KeepWaiting(retryAt) =>
      w.(db := WithCheckpoint(w.db, w.worker.item, w.db.checkpoints[w.worker.item].(nextAttemptAt := retryAt)),
         worker := Idle)
    case SourceFails => w.(worker := Failed(w.worker.item, w.worker.seen, false))
    case ObserveDoomed => w.(worker := Failed(w.worker.item, w.worker.seen, true))
    case ReadAthena =>
      var cp := w.worker.seen;
      w.(worker := if cp.resultsComplete then Fetched(w.worker.item, cp, [], None, true)
                   else Fetched(w.worker.item, cp, p.source.results(cp.execution.value)[Cursor(cp)],
                                NextResultToken(p, cp.execution.value, Cursor(cp)), true))
    case ReadCdx =>
      w.(worker := Fetched(w.worker.item, w.worker.seen,
                           CdxPage(p, w.worker.item, w.worker.seen.indexId, w.worker.seen.page), None, false))
    case RecordFailure(retryAt) =>
      w.(db := FailedDb(w.db, w.worker.item, w.worker.seen, retryAt, w.worker.restartQuery), worker := Idle,
         verdicts := if w.worker.restartQuery && w.worker.seen.execution.Some?
                     then w.verdicts + {w.worker.seen.execution.value} else w.verdicts)
    case CommitPage(now) =>
      w.(db := CommittedDb(p, w.db, w.worker.item, w.worker.page, w.worker.next, w.worker.viaAthena, now), worker := Idle)
    case EarnReceipt(now) =>
      w.(db := ReceiptedDb(p, w.db, w.worker.item, w.worker.seen, now), worker := Idle)
    case Crash => w.(worker := Idle)
    case Settle(e, status) => w.(aws := w.aws.(log := w.aws.log[e := w.aws.log[e].(status := status)]))
    case Classify(c, status) => w.(db := w.db.(candidates := w.db.candidates[c := status]))
    case VerifyAndComplete =>
      w.(db := w.db.(run := w.db.run.(status := if UnresolvedCount(w.db) == 0 then Finished else FinishedWithUnresolved)))
  }

  // ----- runs -----

  /** The world a run is created in: one fresh checkpoint per pattern, nothing read, nothing asked of AWS. */
  function InitialWorld(p: Plan): World
    requires |p.window| > 0
  {
    World(
      Database(map i | i in p.items :: FreshCheckpoint(AuditIndexOrder(p, i.platform)[0]), map[], map[],
               Run(ZERO, 0, Running)),
      Aws(map[], []), Idle, 0, {})
  }

  /** `steps` can be taken one after another from `w`. */
  ghost predicate CanRun(p: Plan, w: World, steps: seq<Step>)
    requires |p.window| > 0
    decreases |steps|
  {
    steps != [] ==> Enabled(p, w, steps[0]) && CanRun(p, Apply(p, w, steps[0]), steps[1..])
  }

  function RunSteps(p: Plan, w: World, steps: seq<Step>): World
    requires |p.window| > 0 && CanRun(p, w, steps)
    decreases |steps|
  {
    if steps == [] then w else RunSteps(p, Apply(p, w, steps[0]), steps[1..])
  }

  /** The configuration gained patterns. */
  function Expanded(p: Plan, more: seq<Item>): Plan {
    p.(items := p.items + more)
  }

  /** One invocation of the program on an unfinished run: patterns it adds to the plan, and the steps it takes. */
  datatype Invocation = Invocation(more: seq<Item>, steps: seq<Step>)

  /** `calls` can follow one another from `w`; the plan only grows, and only while the run is unfinished. */
  ghost predicate CanLive(p: Plan, w: World, calls: seq<Invocation>)
    decreases |calls|
  {
    calls != [] ==>
      var q := Expanded(p, calls[0].more);
      && w.db.run.status.Running? && Good(q)
      && CanRun(q, w, calls[0].steps)
      && CanLive(q, RunSteps(q, w, calls[0].steps), calls[1..])
  }

  ghost function AfterLife(p: Plan, w: World, calls: seq<Invocation>): (Plan, World)
    requires CanLive(p, w, calls)
    decreases |calls|
  {
    if calls == [] then (p, w)
    else
      var q := Expanded(p, calls[0].more);
      AfterLife(q, RunSteps(q, w, calls[0].steps), calls[1..])
  }

  /** `w` is reached from the creation of some run, through any invocations with any steps, crashes included, and
      `p` is the plan the run has by then. */
  ghost predicate Reachable(p: Plan, w: World) {
    |p.window| > 0 && exists first, calls ::
      Good(first) && CanLive(first, InitialWorld(first), calls) && AfterLife(first, InitialWorld(first), calls) == (p, w)
  }
}

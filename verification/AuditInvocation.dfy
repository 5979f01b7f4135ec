/**
 * One invocation of the audit from end to end: a run is crawled, its candidates are drained, and its proof is counted;
 * over a fixed catalog at most two runs are needed until nothing is missing.
 */
module AuditInvocation {
  import opened Basics
  import opened AuditModel
  import opened AuditWalk
  import opened AuditCoverage
  import opened AuditSoundness
  import opened AuditQuantum
  import opened AuditTermination
  import opened RunWindows
  import Lifecycle = CandidateLifecycle
  import Drain = CandidateDrain

  /** What the crawl of one run meets, and what becomes of its candidates. */
  datatype Outside = Outside(
    forecast: nat -> Conditions, pick: Session -> seq<Item>, polls: nat, now: nat, verdict: Candidate -> Status)

  ghost predicate Bearable(o: Outside, calmFrom: nat) {
    (forall n :: calmFrom <= n ==> Calm(o.forecast(n))) && forall c :: !o.verdict(c).Open()
  }

  // ----- draining -----

  /** Every open candidate has its verdict, the others have kept theirs. */
  function Drained(w: World, verdict: Candidate -> Status): World {
    w.(db := w.db.(candidates := map c | c in w.db.candidates ::
         if w.db.candidates[c].Open() then verdict(c) else w.db.candidates[c]))
  }

  function OpenOnes(w: World): set<Candidate> {
    set c | c in w.db.candidates && w.db.candidates[c].Open()
  }

  /** Draining is a run of the transition system. */
  lemma DrainedIsARun(p: Plan, w: World, verdict: Candidate -> Status) returns (steps: seq<Step>)
    requires |p.window| > 0 && forall c :: !verdict(c).Open()
    ensures CanRun(p, w, steps) && RunSteps(p, w, steps) == Drained(w, verdict)
    decreases OpenOnes(w)
  {
    if OpenOnes(w) == {} {
      steps := [];
      forall c | c in w.db.candidates ensures !w.db.candidates[c].Open() { assert c !in OpenOnes(w); }
      assert Drained(w, verdict).db.candidates == w.db.candidates;
    } else {
      var c :| c in OpenOnes(w);
      var s := Classify(c, verdict(c));
      var next := w.(db := w.db.(candidates := w.db.candidates[c := verdict(c)]));
      assert Enabled(p, w, s) && Apply(p, w, s) == next;
      assert OpenOnes(next) == OpenOnes(w) - {c};
      assert Drained(next, verdict).db.candidates == Drained(w, verdict).db.candidates;
      hide Enabled, Apply, OpenOnes;
      var rest := DrainedIsARun(p, next, verdict);
      steps := [s] + rest;
      assert steps[1..] == rest;
    }
  }

  /** Whatever the queue does until no candidate is open, it amounts to some verdicts. */
  lemma DrainingIsVerdicts(w: World, before: map<Candidate, Lifecycle.Row>, after: map<Candidate, Lifecycle.Row>)
    requires Lifecycle.Statuses(before) == w.db.candidates
    requires Drain.RowsEvolved(before, after) && !Drain.SomeOpen(after)
    ensures exists verdict: Candidate -> Status ::
      (forall c :: !verdict(c).Open()) && Drained(w, verdict).db.candidates == Lifecycle.Statuses(after)
  {
    var verdict: Candidate -> Status := c => if c in after then after[c].status else Active;
    forall c ensures !verdict(c).Open() {}
    assert Drained(w, verdict).db.candidates == Lifecycle.Statuses(after);
  }

  // ----- the counting proof succeeds -----

  /** After a finished crawl and with no candidate open the count equality holds: verification cannot fail. */
  lemma FinishedCrawlIsProved(p: Plan, w: World)
    requires Good(p) && Walk(p, w.db)
    requires forall i :: i in p.items ==> i in w.db.checkpoints && AuditCheckpointComplete(p, i.platform, w.db.checkpoints[i])
    requires forall i, x :: i in p.items && x in p.window ==> (i, x) in w.db.receipts
    requires forall c :: c in w.db.candidates ==> !w.db.candidates[c].Open()
    ensures ProofComplete(p, w.db) && w.db.receipts.Keys == Product(p.items, p.window)
  {
    assert PatternsWalk(p, w.db) && ReceiptsInScope(p, w.db);
    forall key | key in w.db.receipts.Keys ensures key in Product(p.items, p.window) {
      assert (key.0, key.1) in w.db.receipts;
    }
    assert w.db.receipts.Keys == Product(p.items, p.window);
    ProductSize(p.items, p.window);
    assert |w.db.receipts.Keys| == |w.db.receipts|;
  }

  lemma InvariantParts(p: Plan, w: World)
    requires |p.window| > 0 && Invariant(p, w)
    ensures Walk(p, w.db) && ReceiptsCovered(p, w)
    ensures !w.db.run.status.Running? ==> (w.db.run.status.Finished? <==> NoneUnresolved(w.db))
  {
    hide Walk, RowsCovered, ReceiptsCovered, PageIsAtCursor, Attentive, ProofComplete, NoneUnresolved;
  }

  lemma DrainedClosesAll(w: World, verdict: Candidate -> Status)
    requires forall c :: !verdict(c).Open()
    ensures var v := Drained(w, verdict);
      && v.worker == w.worker && v.db.run == w.db.run && v.db.receipts == w.db.receipts && v.db.checkpoints == w.db.checkpoints
      && forall c :: c in v.db.candidates ==> !v.db.candidates[c].Open()
  {}

  lemma DoneMeansComplete(p: Plan, s: Session, i: Item)
    requires |p.window| > 0 && Done(p, s, i)
    ensures i in s.world.db.checkpoints && AuditCheckpointComplete(p, i.platform, s.world.db.checkpoints[i])
  {
    hide AuditCheckpointComplete;
  }

  /** Verification is enabled once the proof is complete, and only notes the result. */
  lemma VerificationNotesResult(p: Plan, w: World)
    requires |p.window| > 0 && w.worker.Idle? && w.db.run.status.Running? && ProofComplete(p, w.db)
    ensures Enabled(p, w, VerifyAndComplete)
    ensures var v := Apply(p, w, VerifyAndComplete);
      !v.db.run.status.Running? && v.db.receipts == w.db.receipts && v.db.candidates == w.db.candidates
  {
    hide ProofComplete, UnresolvedCount;
  }

  lemma CoveredProduct(p: Plan, w: World)
    requires ReceiptsCovered(p, w) && w.db.receipts.Keys == Product(p.items, p.window)
    ensures forall i, x :: i in p.items && x in p.window ==> CompletelyRead(p, w, i, x)
  {
    hide CompletelyRead;
    forall i, x | i in p.items && x in p.window ensures CompletelyRead(p, w, i, x) {
      assert (i, x) in Product(p.items, p.window);
    }
  }

  lemma StatusOfCandidates(db: Database)
    ensures NoneUnresolved(db) <==> forall c :: c in db.candidates ==> !db.candidates[c].Unresolved?
  {}

  /** Crawl, drain, verify: the run ends complete, with exactly its patterns times its window as receipts, each
      completely read, and every candidate classified; its status says whether any candidate stayed unresolved. */
  method AuditOneRun(p: Plan, world: World, o: Outside, ghost limit: nat, ghost calmFrom: nat) returns (final: World)
    requires Good(p) && |p.window| > 0 && Invariant(p, world) && world.worker.Idle? && world.db.run.status.Running?
    requires Bounded(p, limit) && Bearable(o, calmFrom)
    ensures Invariant(p, final) && !final.db.run.status.Running?
    ensures final.db.receipts.Keys == Product(p.items, p.window)
    ensures forall i, x :: i in p.items && x in p.window ==> CompletelyRead(p, final, i, x)
    ensures forall c :: c in final.db.candidates ==> !final.db.candidates[c].Open()
    ensures final.db.run.status.Finished? <==> forall c :: c in final.db.candidates ==> !final.db.candidates[c].Unresolved?
  {
    assert forall n :: calmFrom <= n ==> Calm(o.forecast(n));
    assert forall c :: !o.verdict(c).Open();
    hide *;
    var crawled, trace := CrawlEveryPattern(p, world, o.forecast, o.pick, o.polls, o.now, limit, calmFrom);
    forall i | i in p.items
      ensures i in crawled.world.db.checkpoints && AuditCheckpointComplete(p, i.platform, crawled.world.db.checkpoints[i])
    {
      DoneMeansComplete(p, crawled, i);
    }
    ghost var steps := DrainedIsARun(p, crawled.world, o.verdict);
    RunKeepsInvariant(p, crawled.world, steps);
    var drained := Drained(crawled.world, o.verdict);
    DrainedClosesAll(crawled.world, o.verdict);
    InvariantParts(p, drained);
    FinishedCrawlIsProved(p, drained);
    VerificationNotesResult(p, drained);
    StepKeepsInvariant(p, drained, VerifyAndComplete);
    final := Apply(p, drained, VerifyAndComplete);
    InvariantParts(p, final);
    CoveredProduct(p, final);
    StatusOfCandidates(final.db);
  }

  // ----- the whole invocation -----

  /** An earlier invocation's run, wherever that left off. */
  datatype Unfinished = Unfinished(row: RunRow, plan: Plan, world: World)

  function RowOf(u: Option<Unfinished>): Option<RunRow> {
    if u.None? then None else Some(u.value.row)
  }

  /** The row describes the run, the process that worked on it is gone, and the catalog, to which indexes are only ever
      added, still lists its window in one piece if it reaches back that far. */
  ghost predicate Resumable(u: Unfinished, catalog: seq<IndexId>, newestFirst: Platform -> bool, source: Source) {
    && Reachable(u.plan, u.world) && u.world.worker.Idle? && u.world.db.run.status.Running?
    && u.plan.newestFirst == newestFirst && u.plan.source == source
    && u.row.patterns == u.plan.items && u.row.indexCount == |u.plan.window| && u.row.target == Target(u.plan)
    && (var window := AuditRunIndexSequence(u.row.indexCount, u.row.target, catalog);
        window.Ok? ==> window.value == u.plan.window)
  }

  /** What a round has to cover; a resumed run keeps its patterns and takes on those the configuration gained. */
  function PlanOf(u: Option<Unfinished>, items: seq<Item>, indices: seq<IndexId>, newestFirst: Platform -> bool, source: Source): Plan {
    if u.None? then Plan(items, indices, newestFirst, source)
    else Expanded(u.value.plan, Without(items, u.value.plan.items))
  }

  ghost predicate Ready(p: Plan, world: World) {
    Good(p) && |p.window| > 0 && Invariant(p, world) && world.worker.Idle? && world.db.run.status.Running?
  }

  lemma WorkItems(configured: seq<Item>, unfinished: Option<RunRow>)
    ensures var items := AuditWorkItems(configured, unfinished);
      && Distinct(items) && (forall i :: i in configured ==> i in items)
      && (if unfinished.None? then forall i :: i in items ==> i in configured
          else forall i :: i in items <==> i in configured + unfinished.value.patterns)
  {
    if unfinished.Some? {
      assert forall i :: i in configured || i in unfinished.value.patterns ==> i in configured + unfinished.value.patterns;
    }
  }

  lemma RecoveredWindow(indexCount: nat, target: IndexId, catalog: seq<IndexId>)
    requires Distinct(catalog)
    ensures var window := AuditRunIndexSequence(indexCount, target, catalog);
      window.Ok? ==> Distinct(window.value) && (indexCount > 0 ==> |window.value| > 0)
  {
    hide IndexOf;
  }

  lemma FreshStart(items: seq<Item>, indices: seq<IndexId>, newestFirst: Platform -> bool, source: Source)
    requires Distinct(items) && Distinct(indices) && |indices| > 0 && forall e :: |source.results(e)| > 0
    ensures var p := PlanOf(None, items, indices, newestFirst, source);
      |p.window| > 0 && Ready(p, InitialWorld(p)) && p.items == items && p.window == indices && p.source == source
  {
    var p := PlanOf(None, items, indices, newestFirst, source);
    assert Good(p) && InitialWorld(p).worker.Idle? && InitialWorld(p).db.run.status.Running?;
    hide Good, Invariant, InitialWorld;
    InitialInvariant(p);
  }

  lemma ResumedStart(u: Unfinished, items: seq<Item>, catalog: seq<IndexId>, newestFirst: Platform -> bool, source: Source)
    requires Resumable(u, catalog, newestFirst, source) && Distinct(items) && forall i :: i in u.plan.items ==> i in items
    ensures var p := PlanOf(Some(u), items, [], newestFirst, source);
      && Ready(p, u.world) && p.window == u.plan.window && p.source == source
      && (forall i :: i in p.items <==> i in items)
  {
    var more := Without(items, u.plan.items);
    var p := Expanded(u.plan, more);
    ReachableInvariant(u.plan, u.world);
    DistinctConcat(u.plan.items, more);
    assert Good(p);
    hide Good, Invariant, Reachable, Without;
    ExpansionKeepsInvariant(u.plan, more, u.world);
    assert |p.window| > 0 by { GoodHasWindow(p); }
  }

  lemma GoodHasWindow(p: Plan)
    requires Good(p)
    ensures |p.window| > 0
  {}

  lemma SameItemsSameProduct(a: seq<Item>, b: seq<Item>, window: seq<IndexId>)
    requires forall i :: i in a <==> i in b
    ensures Product(a, window) == Product(b, window)
  {}

  lemma BoundedBySource(p: Plan, q: Plan, limit: nat)
    requires p.source == q.source && Bounded(p, limit)
    ensures Bounded(q, limit)
  {}

  /** The run a round works on, up to the point where crawling starts. */
  lemma RoundStart(u: Option<Unfinished>, catalog: seq<IndexId>, configured: seq<Item>, run: RunRow, indices: seq<IndexId>,
                   newestFirst: Platform -> bool, source: Source)
    requires Distinct(catalog) && (forall e :: |source.results(e)| > 0)
    requires u.Some? ==> Resumable(u.value, catalog, newestFirst, source)
    requires AuditRunIndexSequence(run.indexCount, run.target, catalog) == Ok(indices)
    requires u.None? ==> run.indexCount > 0
    requires u.Some? ==> run.indexCount == u.value.row.indexCount && run.target == u.value.row.target
    ensures var items := AuditWorkItems(configured, RowOf(u));
            var p := PlanOf(u, items, indices, newestFirst, source);
      && |p.window| > 0 && Ready(p, if u.Some? then u.value.world else InitialWorld(p))
      && p.source == source && Product(p.items, p.window) == Product(items, indices)
  {
    var items := AuditWorkItems(configured, RowOf(u));
    WorkItems(configured, RowOf(u));
    RecoveredWindow(run.indexCount, run.target, catalog);
    hide Ready, AuditWorkItems, AuditRunIndexSequence, InitialWorld, Product, Reachable;
    if u.None? {
      FreshStart(items, indices, newestFirst, source);
    } else {
      ResumedStart(u.value, items, catalog, newestFirst, source);
      SameItemsSameProduct(PlanOf(u, items, indices, newestFirst, source).items, items, indices);
    }
  }

  /** What one round adds: a resumed run, with the patterns the configuration gained, its own window; a new run,
      with the configured patterns, everything from the first missing index on. */
  ghost predicate RoundAdds(u: Option<Unfinished>, catalog: seq<IndexId>, configured: seq<Item>, before: Coverage, row: RunRow,
                            after: Coverage)
  {
    if u.None? then
      FreshRun(row, catalog, configured, before)
      && after == before + Product(configured, catalog[|catalog| - row.indexCount..])
    else
      && row.target == u.value.row.target && row.indexCount == u.value.row.indexCount
      && after == before + Product(configured + u.value.plan.items, u.value.plan.window)
  }

  lemma RoundAddsUp(u: Option<Unfinished>, catalog: seq<IndexId>, configured: seq<Item>, before: Coverage, row: RunRow,
                    indices: seq<IndexId>, newestFirst: Platform -> bool, source: Source)
    requires Distinct(catalog)
    requires u.Some? ==> Resumable(u.value, catalog, newestFirst, source)
    requires CreateOrResumeRun(catalog, RowOf(u), AuditWorkItems(configured, RowOf(u)), before) == Ok(Some(row))
    requires AuditRunIndexSequence(row.indexCount, row.target, catalog) == Ok(indices)
    ensures RoundAdds(u, catalog, configured, before, row, before + Product(AuditWorkItems(configured, RowOf(u)), indices))
  {
    var items := AuditWorkItems(configured, RowOf(u));
    if u.None? {
      CreatedRunIsFresh(catalog, configured, before);
      WindowToTheNewest(catalog, row.indexCount);
      assert FreshRun(row, catalog, configured, before) && indices == catalog[|catalog| - row.indexCount..];
      hide *;
      WorkItems(configured, RowOf(u));
      SameItemsSameProduct(items, configured, indices);
      assert RoundAdds(u, catalog, configured, before, row, before + Product(items, indices)) by {
        NewRoundAdds(catalog, configured, before, row);
      }
    } else {
      assert items == Dedupe(configured + u.value.row.patterns);
      assert u.value.row.patterns == u.value.plan.items && indices == u.value.plan.window by { hide AuditRunIndexSequence; }
      hide AuditRunIndexSequence, Resumable, Product, AuditWorkItems;
      SameItemsSameProduct(items, configured + u.value.plan.items, indices);
    }
  }

  lemma NewRoundAdds(catalog: seq<IndexId>, configured: seq<Item>, before: Coverage, row: RunRow)
    requires FreshRun(row, catalog, configured, before)
    ensures RoundAdds(None, catalog, configured, before, row, before + Product(configured, catalog[|catalog| - row.indexCount..]))
  {
    hide Product;
  }

  lemma WindowToTheNewest(catalog: seq<IndexId>, indexCount: nat)
    requires Distinct(catalog) && 1 <= indexCount <= |catalog|
    ensures AuditRunIndexSequence(indexCount, catalog[|catalog|-1], catalog) == Ok(catalog[|catalog| - indexCount..])
  {
    IndexOfIsUnique(catalog, |catalog| - 1);
    hide IndexOf, Distinct;
    assert catalog[|catalog| - indexCount..|catalog|] == catalog[|catalog| - indexCount..];
  }

  /** A created run has an index to walk. */
  lemma CreatedRunHasIndex(catalog: seq<IndexId>, items: seq<Item>, covered: Coverage)
    requires var run := CreateOrResumeRun(catalog, None, items, covered); run.Ok? && run.value.Some?
    ensures CreateOrResumeRun(catalog, None, items, covered).value.value.indexCount > 0
  {
    hide AuditIndicesMissingCoverage;
  }

  /** One invocation over a fixed catalog and configuration, with whatever the crawl of each round meets. Unless it
      refuses to start, it ends after at most two completed runs, one when nothing was unfinished, with every
      configured pattern covered through the whole catalog and no run left unfinished. Each round adds exactly its own
      patterns times its own window. */
  method RunFullAudit(catalog: seq<IndexId>, configured: seq<Item>, resumed: Option<Unfinished>, known: Coverage,
                      newestFirst: Platform -> bool, source: Source, outside: nat -> Outside, ghost limit: nat, ghost calmFrom: nat)
    returns (result: Result<Coverage>, completed: seq<RunRow>)
    requires Distinct(catalog) && (forall e :: |source.results(e)| > 0)
    requires resumed.Some? ==> Resumable(resumed.value, catalog, newestFirst, source)
    requires Bounded(Plan([], [], newestFirst, source), limit) && forall n :: Bearable(outside(n), calmFrom)
    ensures result.Error? <==> Refuses(catalog, configured, RowOf(resumed))
    ensures result.Ok? ==> known <= result.value && Product(configured, catalog) <= result.value
    ensures |completed| <= if resumed.Some? then 2 else 1
    ensures result.Ok? && completed == [] ==> resumed.None? && Product(configured, catalog) <= known && result.value == known
    ensures result.Ok? && |completed| == 1 ==> RoundAdds(resumed, catalog, configured, known, completed[0], result.value)
    ensures result.Ok? && |completed| == 2 ==>
              exists mid :: RoundAdds(resumed, catalog, configured, known, completed[0], mid)
                            && RoundAdds(None, catalog, configured, mid, completed[1], result.value)
    ensures result.Ok? && resumed.None? && Product(configured, catalog) <= known ==> completed == []
  {
    hide Product, CreateOrResumeRun, AuditRunIndexSequence, AuditWorkItems, Refuses, Resumable, Bounded, Bearable, Good, Invariant,
         CompletelyRead, InitialWorld, PlanOf, RoundAdds;
    NothingUnfinished(catalog, configured);
    var covered, unfinished := known, resumed;
    ghost var mid := known;
    completed := [];
    while true
      invariant known <= covered
      invariant unfinished == if completed == [] then resumed else None
      invariant |completed| <= if resumed.Some? then 2 else 1
      invariant |completed| == 2 || (|completed| == 1 && resumed.None?) ==> Product(configured, catalog) <= covered
      invariant completed == [] ==> covered == known
      invariant completed != [] ==> !Refuses(catalog, configured, RowOf(resumed))
      invariant |completed| == 1 ==> RoundAdds(resumed, catalog, configured, known, completed[0], covered)
      invariant |completed| == 2 ==> RoundAdds(resumed, catalog, configured, known, completed[0], mid)
                                     && RoundAdds(None, catalog, configured, mid, completed[1], covered)
      invariant completed != [] && resumed.None? ==> !(Product(configured, catalog) <= known)
      decreases 2 - |completed|
    {
      var row := RowOf(unfinished);
      if row.None? { FreshRound(catalog, configured, covered); } else { ResumedRound(catalog, configured, row.value, covered); }
      var items := AuditWorkItems(configured, row);
      var run := CreateOrResumeRun(catalog, row, items, covered);
      if run.Error? { return Error, completed; }
      if run.value.None? { return Ok(covered), completed; }
      var indices := AuditRunIndexSequence(run.value.value.indexCount, run.value.value.target, catalog);
      if indices.Error? { return Error, completed; }
      if row.None? { CreatedRunHasIndex(catalog, items, covered); }
      RoundStart(unfinished, catalog, configured, run.value.value, indices.value, newestFirst, source);
      var p := PlanOf(unfinished, items, indices.value, newestFirst, source);
      BoundedBySource(Plan([], [], newestFirst, source), p, limit);
      var final := AuditOneRun(p, if unfinished.Some? then unfinished.value.world else InitialWorld(p), outside(|completed|),
                               limit, calmFrom);
      RoundAddsUp(unfinished, catalog, configured, covered, run.value.value, indices.value, newestFirst, source);
      mid := covered;
      covered, unfinished, completed := covered + final.db.receipts.Keys, None, completed + [run.value.value];
    }
  }
}

/**
 * Termination of the crawl: over finite sources, once the bad answers are over, the scheduler run over the
 * quanta of all patterns returns, and then every pattern has every receipt.
 */
module AuditTermination {
  import opened Basics
  import opened RetryPolicy
  import opened CooperativeScheduler
  import opened SchedulerFairness
  import opened AuditModel
  import opened AuditWalk
  import opened AuditSubmission
  import opened AuditCoverage
  import opened AuditSoundness
  import opened AuditQuantum
  import opened AuditProgress

  /** No source ever holds more than `limit` pages. */
  ghost predicate Bounded(p: Plan, limit: nat) {
    && (forall i, x :: |p.source.cdx(i, x)| <= limit)
    && (forall e :: |p.source.results(e)| <= limit)
  }

  /** A good answer: nothing breaks, an accepted query is saved, and a running one succeeds. */
  predicate Calm(c: Conditions) {
    !c.broken && c.call.Saved? && c.settles == Some(Succeeded)
  }

  // ----- the rank of a row -----

  predicate IsDoomed(aws: Aws, e: Option<Execution>) {
    e.Some? && e.value < |aws.log| && aws.log[e.value].status.Doomed?
  }

  /** How many calm contacts the query of a row is away from readable results, times the room they may take. */
  function Stage(aws: Aws, row: Checkpoint, limit: nat): nat {
    if row.execution.Some? then if IsDoomed(aws, row.execution) then 2 * (limit + 1) else 0
    else if IsDoomed(aws, Behind(aws, row.token)) then 3 * (limit + 1) else limit + 1
  }

  function Times(n: nat, m: nat): nat {
    if n == 0 then 0 else m + Times(n - 1, m)
  }

  function Rank(p: Plan, aws: Aws, item: Item, row: Checkpoint, limit: nat): nat
    requires |p.window| > 0
  {
    Times(IndicesLeft(p, item, row), 2 * (limit + 1)) + Stage(aws, row, limit) + PagesLeft(p, item, row)
  }

  lemma PagesLeftBounds(p: Plan, item: Item, row: Checkpoint, limit: nat)
    requires Bounded(p, limit)
    ensures ResultPagesLeft(p, row) <= limit
    ensures Monus(FirstEmpty(p.source.cdx(item, row.indexId)), row.page) <= limit
    ensures PagesLeft(p, item, row) <= 2 * limit
    ensures row.execution.None? ==> PagesLeft(p, item, row) <= limit
  {}

  /** AWS only gained good news. */
  ghost predicate Calmer(aws: Aws, next: Aws) {
    && |aws.log| <= |next.log|
    && (forall e :: 0 <= e < |next.log| ==>
          (next.log[e].status.Doomed? <==> e < |aws.log| && aws.log[e].status.Doomed?))
    && (forall t :: t in aws.holds ==> t in next.holds && next.holds[t] == aws.holds[t])
    && (forall t :: t in next.holds && t !in aws.holds ==> |aws.log| <= next.holds[t])
  }

  lemma CalmerKeepsStage(aws: Aws, next: Aws, row: Checkpoint, limit: nat)
    requires Calmer(aws, next)
    requires row.execution.Some? ==> row.execution.value < |aws.log|
    ensures Stage(next, row, limit) == Stage(aws, row, limit)
  {}

  lemma CalmAws(p: Plan, w: World, item: Item, row: Checkpoint, c: Conditions)
    requires Calm(c)
    ensures var found := w.(aws := FoundAws(p, w, row, c));
      Calmer(w.aws, found.aws) && Calmer(w.aws, AwsAfter(found, item, row, HowItEnds(p, found.aws, item, row, c)))
  {
    hide CdxPage, ReadEnding;
  }

  /** How a contact may end when the answers are good. */
  ghost predicate CalmEnding(p: Plan, aws: Aws, item: Item, row: Checkpoint, ending: Ending) {
    match ending
    case Receipt => true
    case PageRead(page, next, viaAthena) =>
      && !Exhausts(page, next, viaAthena)
      && if viaAthena then row.execution.Some? && !row.resultsComplete
                           && next == NextResultToken(p, row.execution.value, Cursor(row))
         else page == CdxPage(p, item, row.indexId, row.page)
    case Submission(call) => call.Saved? && row.execution.None?
    case Waiting => false
    case Failure(restartQuery) => restartQuery && IsDoomed(aws, row.execution)
  }

  lemma CalmEndings(p: Plan, w: World, item: Item, row: Checkpoint, c: Conditions)
    requires |p.window| > 0 && Calm(c) && GoodRow(p, w, item, row)
    ensures var aws := FoundAws(p, w, row, c);
      CalmEnding(p, aws, item, row, HowItEnds(p, aws, item, row, c))
  {
    hide CdxPage, FirstEmpty, AuditIndexOrder;
  }

  lemma TimesLess(n: nat, m: nat)
    requires n > 0
    ensures Times(n, m) == m + Times(n - 1, m)
  {}

  lemma ReceiptRank(p: Plan, aws: Aws, item: Item, row: Checkpoint, now: int, limit: nat)
    requires Good(p) && Bounded(p, limit)
    requires row.indexId in AuditIndexOrder(p, item.platform) && !CompletedThroughTarget(p, row)
    ensures Rank(p, aws, item, AfterReceipt(p, item, row, now), limit) < Rank(p, aws, item, row, limit)
  {
    var after := AfterReceipt(p, item, row, now);
    ReceiptProgress(p, item, row, now);
    TimesLess(IndicesLeft(p, item, row), 2 * (limit + 1));
    PagesLeftBounds(p, item, after, limit);
    assert || (after.execution == row.execution && after.token == row.token
                && PagesLeft(p, item, after) == PagesLeft(p, item, row))
           || (after.execution.None? && after.token.None?);
    hide Times, IndicesLeft, PagesLeft, AfterReceipt;
  }

  lemma SubmissionRank(p: Plan, w: World, item: Item, row: Checkpoint, after: Checkpoint, now: int, limit: nat)
    requires |p.window| > 0 && Bounded(p, limit) && GoodRow(p, w, item, row) && row.execution.None?
    requires after == RowAfter(p, w, item, row, Submission(Saved), now)
    ensures Rank(p, AwsAfter(w, item, row, Submission(Saved)), item, after, limit) < Rank(p, w.aws, item, row, limit)
  {
    PagesLeftBounds(p, item, after, limit);
    assert IndicesLeft(p, item, after) == IndicesLeft(p, item, row);
    assert PagesLeft(p, item, after) == PagesLeft(p, item, row) + ResultPagesLeft(p, after);
    SubmissionStage(p, w, item, row, after, now, limit);
    hide Times, IndicesLeft, PagesLeft, AwsAfter, RowAfter, GoodRow, Stage;
  }

  lemma SubmissionStage(p: Plan, w: World, item: Item, row: Checkpoint, after: Checkpoint, now: int, limit: nat)
    requires |p.window| > 0 && GoodRow(p, w, item, row) && row.execution.None?
    requires after == RowAfter(p, w, item, row, Submission(Saved), now)
    ensures Stage(AwsAfter(w, item, row, Submission(Saved)), after, limit) + limit + 1 == Stage(w.aws, row, limit)
  {
    hide AuditIndexOrder, FirstEmpty;
  }

  /** `w` is the world as the contact finds it. */
  lemma CalmRank(p: Plan, w: World, item: Item, row: Checkpoint, ending: Ending, now: int, limit: nat)
    requires Good(p) && Bounded(p, limit) && GoodRow(p, w, item, row)
    requires CalmEnding(p, w.aws, item, row, ending)
    ensures Rank(p, AwsAfter(w, item, row, ending), item, RowAfter(p, w, item, row, ending, now), limit)
            < Rank(p, w.aws, item, row, limit)
  {
    var after := RowAfter(p, w, item, row, ending, now);
    PagesLeftBounds(p, item, row, limit);
    PagesLeftBounds(p, item, after, limit);
    match ending
    case Receipt =>
      ReceiptProgress(p, item, row, now);
      ReceiptRank(p, w.aws, item, row, now, limit);
    case PageRead(page, next, viaAthena) =>
      PageProgress(p, w, item, row, page, next, viaAthena, Delta(p, w.db, item, page), now);
    case Submission(call) => SubmissionRank(p, w, item, row, after, now, limit);
    case Failure(_) =>
  }

  /** Once the answers are good, a contact lowers the rank of its own row and of no other. */
  lemma CalmContactProgresses(p: Plan, w: World, item: Item, c: Conditions, now: int, limit: nat)
    requires Good(p) && Bounded(p, limit) && Calm(c) && Invariant(p, w) && Contacting(p, w, item, now)
    ensures var v := AfterQuantum(p, w, item, c, now).0;
      && Rank(p, v.aws, item, Row(p, v.db, item), limit) < Rank(p, w.aws, item, Row(p, w.db, item), limit)
      && Calmer(w.aws, v.aws)
      && v.db.checkpoints == w.db.checkpoints[item := Row(p, v.db, item)]
  {
    assert |p.window| > 0;
    var row := Row(p, w.db, item);
    var found := w.(aws := FoundAws(p, w, row, c));
    var ending := HowItEnds(p, found.aws, item, row, c);
    ContactFacts(p, w, item, c, now);
    RowIsGood(p, w, item, now);
    CalmAws(p, w, item, row, c);
    CalmEndings(p, w, item, row, c);
    assert ContactEffect(p, found, item, row, ending, now, AfterQuantum(p, w, item, c, now).0) ==>
      AfterQuantum(p, w, item, c, now).0.db.checkpoints == w.db.checkpoints[item := RowAfter(p, found, item, row, ending, now)] by {
      hide AfterQuantum, RowAfter;
    }
    assert row.execution.Some? ==> row.execution.value < |w.aws.log|;
    hide *;
    CalmRank(p, found, item, row, ending, now, limit);
    CalmerKeepsStage(w.aws, found.aws, row, limit);
    SameStageSameRank(p, w.aws, found.aws, item, row, limit);
  }

  lemma SameStageSameRank(p: Plan, a: Aws, b: Aws, item: Item, row: Checkpoint, limit: nat)
    requires |p.window| > 0 && Stage(a, row, limit) == Stage(b, row, limit)
    ensures Rank(p, a, item, row, limit) == Rank(p, b, item, row, limit)
  {}

  // ----- all rows together -----

  function TotalRank(p: Plan, w: World, items: seq<Item>, limit: nat): nat
    requires |p.window| > 0
  {
    if items == [] then 0
    else TotalRank(p, w, items[..|items|-1], limit)
         + Rank(p, w.aws, items[|items|-1], Row(p, w.db, items[|items|-1]), limit)
  }

  /** Only the row of `item` differs, and it ranks lower. */
  ghost predicate OneLower(p: Plan, w: World, v: World, item: Item, limit: nat)
    requires |p.window| > 0
  {
    && Rank(p, v.aws, item, Row(p, v.db, item), limit) < Rank(p, w.aws, item, Row(p, w.db, item), limit)
    && (forall j :: j != item ==> Rank(p, v.aws, j, Row(p, v.db, j), limit) == Rank(p, w.aws, j, Row(p, w.db, j), limit))
  }

  lemma {:induction false} OneLowerTotal(p: Plan, w: World, v: World, item: Item, items: seq<Item>, limit: nat)
    requires |p.window| > 0 && OneLower(p, w, v, item, limit)
    ensures TotalRank(p, v, items, limit) <= TotalRank(p, w, items, limit)
    ensures item in items ==> TotalRank(p, v, items, limit) < TotalRank(p, w, items, limit)
  {
    hide Rank, Row;
    if items != [] {
      OneLowerTotal(p, w, v, item, items[..|items|-1], limit);
      assert items == items[..|items|-1] + [items[|items|-1]];
    }
  }

  lemma OthersKeepRank(p: Plan, w: World, v: World, item: Item, j: Item, limit: nat)
    requires Good(p) && Invariant(p, w) && Calmer(w.aws, v.aws) && j != item
    requires item in v.db.checkpoints && v.db.checkpoints == w.db.checkpoints[item := v.db.checkpoints[item]]
    ensures Rank(p, v.aws, j, Row(p, v.db, j), limit) == Rank(p, w.aws, j, Row(p, w.db, j), limit)
  {
    var row := Row(p, w.db, j);
    assert Row(p, v.db, j) == row;
    assert row.execution.Some? ==> row.execution.value < |w.aws.log| by {
      if j in w.db.checkpoints { assert RowsMatchAws(w) && RowMatchesAws(w, j); }
    }
    hide *;
    CalmerKeepsStage(w.aws, v.aws, row, limit);
    SameStageSameRank(p, v.aws, w.aws, j, row, limit);
  }

  lemma CalmContactLowersTotal(p: Plan, w: World, item: Item, c: Conditions, now: int, limit: nat)
    requires Good(p) && Bounded(p, limit) && Calm(c) && Invariant(p, w) && Contacting(p, w, item, now)
    ensures |p.window| > 0
    ensures TotalRank(p, AfterQuantum(p, w, item, c, now).0, p.items, limit) < TotalRank(p, w, p.items, limit)
  {
    assert |p.window| > 0 && item in p.items;
    var v := AfterQuantum(p, w, item, c, now).0;
    hide Good, Bounded, Calm, Contacting, AfterQuantum, Rank, Invariant, Row, Calmer;
    CalmContactProgresses(p, w, item, c, now, limit);
    forall j | j != item ensures Rank(p, v.aws, j, Row(p, v.db, j), limit) == Rank(p, w.aws, j, Row(p, w.db, j), limit) {
      OthersKeepRank(p, w, v, item, j, limit);
    }
    OneLowerTotal(p, w, v, item, p.items, limit);
  }

  // ----- the crawl phase of one invocation -----

  /** Everything the scheduler's callbacks touch: the world, how many contacts were made, and the clock. */
  datatype Session = Session(world: World, contacts: nat, now: int)

  predicate Contacts(p: Plan, s: Session, item: Item)
    requires |p.window| > 0
  {
    && (item in s.world.db.checkpoints ==> !AuditCheckpointComplete(p, item.platform, s.world.db.checkpoints[item]))
    && Row(p, s.world.db, item).nextAttemptAt <= s.now
  }

  /** The quantum of `item`; the n-th contact meets the conditions `forecast(n)`. */
  function Quantum(p: Plan, forecast: nat -> Conditions, s: Session, item: Item): (Session, QuantumResult)
    requires |p.window| > 0
  {
    var c := forecast(s.contacts);
    var (v, result) := AfterQuantum(p, s.world, item, c, s.now);
    if Contacts(p, s, item) then (Session(v, s.contacts + 1, s.now + c.took), result) else (s.(world := v), result)
  }

  function Later(s: Session, until: int): Session {
    if s.now < until then s.(now := until) else s
  }

  /** A query was accepted and its id is stored. */
  predicate HasQuery(s: Session, item: Item) {
    item in s.world.db.checkpoints && s.world.db.checkpoints[item].execution.Some?
  }

  /** While nothing else may be contacted, look at queries already paid for, until one of them gets on. */
  function Drain(p: Plan, forecast: nat -> Conditions, s: Session, pending: seq<Item>): (Session, bool)
    requires |p.window| > 0
    decreases |pending|
  {
    if pending == [] then (s, false)
    else if pending[0] !in p.items || !HasQuery(s, pending[0]) || !Contacts(p, s, pending[0]) then
      Drain(p, forecast, s, pending[1..])
    else
      var (v, result) := Quantum(p, forecast, s, pending[0]);
      if result.Deferred? then Drain(p, forecast, v, pending[1..]) else (v, true)
  }

  /** The session when the wait comes round again. */
  function NextPoll(p: Plan, forecast: nat -> Conditions, pick: Session -> seq<Item>, s: Session, until: int): Session
    requires |p.window| > 0
  {
    var (v, advanced) := Drain(p, forecast, s, pick(s));
    var left := until - v.now;
    var nap := if advanced then 0 else if left < 1 then 1 else if left > 60_000 then 60_000 else left;
    v.(now := v.now + nap)
  }

  /** A long wait: drain, and nap for at most a minute when nothing got on. `pick` is the database's choice of pending
      queries, `polls` how often the wait comes round before it is over. */
  function WaitProductively(p: Plan, forecast: nat -> Conditions, pick: Session -> seq<Item>, s: Session, until: int, polls: nat): Session
    requires |p.window| > 0
    decreases polls
  {
    if polls == 0 || until <= s.now then Later(s, until)
    else WaitProductively(p, forecast, pick, NextPoll(p, forecast, pick, s, until), until, polls - 1)
  }

  ghost predicate ValidSession(p: Plan, s: Session) {
    Good(p) && Invariant(p, s.world) && s.world.worker.Idle? && s.world.db.run.status.Running? && s.now >= 0
  }

  function Due(p: Plan, s: Session, item: Item): int
    requires |p.window| > 0
  {
    Row(p, s.world.db, item).nextAttemptAt
  }

  function StormsLeft(calmFrom: nat, s: Session): nat {
    Monus(calmFrom, s.contacts)
  }

  lemma QuantumStaysValid(p: Plan, forecast: nat -> Conditions, s: Session, item: Item)
    requires ValidSession(p, s) && item in p.items
    ensures |p.window| > 0 && ValidSession(p, Quantum(p, forecast, s, item).0)
  {
    assert |p.window| > 0;
    var c := forecast(s.contacts);
    QuantumIsARun(p, s.world, item, c, s.now);
    RunKeepsInvariant(p, s.world, QuantumSteps(p, s.world, item, c, s.now));
    QuantumKeepsStatus(p, s.world, item, c, s.now);
    hide Invariant, Good, AfterQuantum, QuantumSteps, CanRun, RunSteps, AuditCheckpointComplete, Row;
  }

  lemma QuantumKeepsStatus(p: Plan, w: World, item: Item, c: Conditions, now: int)
    requires |p.window| > 0 && item in p.items && w.worker.Idle? && w.db.run.status.Running?
    ensures var v := AfterQuantum(p, w, item, c, now).0; v.worker == w.worker && v.db.run.status == w.db.run.status
  {
    hide AuditCheckpointComplete, AfterAthena, AfterCdx, AuditIndexOrder;
    if Contacting(p, w, item, now) {
      QuantumEffect(p, w, item, c, now);
      hide AfterQuantum, HowItEnds, FoundAws, RowAfter, Reported, AwsAfter, Row;
    }
  }

  /** Fewer bad answers to come, or as many and less to read. */
  ghost predicate Lower(p: Plan, limit: nat, calmFrom: nat, a: Session, b: Session)
    requires |p.window| > 0
  {
    || StormsLeft(calmFrom, a) < StormsLeft(calmFrom, b)
    || (StormsLeft(calmFrom, a) == StormsLeft(calmFrom, b)
        && TotalRank(p, a.world, p.items, limit) < TotalRank(p, b.world, p.items, limit))
  }

  lemma ContactLowers(p: Plan, forecast: nat -> Conditions, limit: nat, calmFrom: nat, s: Session, item: Item)
    requires ValidSession(p, s) && item in p.items && Bounded(p, limit)
    requires forall n :: calmFrom <= n ==> Calm(forecast(n))
    requires |p.window| > 0 && Contacts(p, s, item)
    ensures ValidSession(p, Quantum(p, forecast, s, item).0)
    ensures Lower(p, limit, calmFrom, Quantum(p, forecast, s, item).0, s)
  {
    QuantumStaysValid(p, forecast, s, item);
    if calmFrom <= s.contacts {
      assert Contacting(p, s.world, item, s.now);
      CalmContactLowersTotal(p, s.world, item, forecast(s.contacts), s.now, limit);
      hide ValidSession, AfterQuantum, TotalRank, Contacts;
    } else {
      hide ValidSession, AfterQuantum, TotalRank, Contacts;
    }
  }

  lemma QuantumIsLawful(p: Plan, forecast: nat -> Conditions, limit: nat, calmFrom: nat, s: Session, item: Item)
    requires ValidSession(p, s) && item in p.items && Bounded(p, limit)
    requires forall n :: calmFrom <= n ==> Calm(forecast(n))
    ensures |p.window| > 0
    ensures var (next, r) := Quantum(p, forecast, s, item);
      && ValidSession(p, next)
      && (|| Lower(p, limit, calmFrom, next, s)
          || (next == s && r.Complete?)
          || (next == s && r == Deferred(false, Due(p, s, item)) && s.now < Due(p, s, item)))
  {
    QuantumStaysValid(p, forecast, s, item);
    if Contacts(p, s, item) {
      ContactLowers(p, forecast, limit, calmFrom, s, item);
    } else {
      NoContactIsStill(p, s, item, forecast(s.contacts));
      hide ValidSession, TotalRank, AfterQuantum, Bounded, Lower;
    }
  }

  lemma {:induction false} DrainIsLawful(p: Plan, forecast: nat -> Conditions, limit: nat, calmFrom: nat, s: Session, pending: seq<Item>)
    requires ValidSession(p, s) && Bounded(p, limit) && |p.window| > 0
    requires forall n :: calmFrom <= n ==> Calm(forecast(n))
    ensures var (v, advanced) := Drain(p, forecast, s, pending);
      ValidSession(p, v) && (Lower(p, limit, calmFrom, v, s) || (v == s && !advanced))
    decreases |pending|
  {
    hide ValidSession, Bounded, Calm, Contacts, Quantum, TotalRank, HasQuery;
    if pending != [] {
      if pending[0] !in p.items || !HasQuery(s, pending[0]) || !Contacts(p, s, pending[0]) {
        DrainIsLawful(p, forecast, limit, calmFrom, s, pending[1..]);
      } else {
        ContactLowers(p, forecast, limit, calmFrom, s, pending[0]);
        DrainIsLawful(p, forecast, limit, calmFrom, Quantum(p, forecast, s, pending[0]).0, pending[1..]);
      }
    }
  }

  /** A wait does not strand what was paid for: when any of the pending patterns has a query, is due and is not finished,
      draining contacts one. */
  lemma {:induction false} DrainReachesPaidQueries(p: Plan, forecast: nat -> Conditions, s: Session, pending: seq<Item>, i: Item)
    requires |p.window| > 0 && i in pending && i in p.items
    requires i in s.world.db.checkpoints && s.world.db.checkpoints[i].execution.Some?
    requires s.world.db.checkpoints[i].nextAttemptAt <= s.now
    requires !AuditCheckpointComplete(p, i.platform, s.world.db.checkpoints[i])
    ensures Drain(p, forecast, s, pending).0.contacts > s.contacts
    decreases |pending|
  {
    hide AuditCheckpointComplete, AfterQuantum;
    if pending[0] !in p.items || !HasQuery(s, pending[0]) || !Contacts(p, s, pending[0]) {
      assert pending[0] != i;
      DrainReachesPaidQueries(p, forecast, s, pending[1..], i);
    } else {
      DrainOnlyAdds(p, forecast, Quantum(p, forecast, s, pending[0]).0, pending[1..]);
    }
  }

  lemma {:induction false} DrainOnlyAdds(p: Plan, forecast: nat -> Conditions, s: Session, pending: seq<Item>)
    requires |p.window| > 0
    ensures Drain(p, forecast, s, pending).0.contacts >= s.contacts
    decreases |pending|
  {
    hide AfterQuantum, Contacts, HasQuery;
    if pending != [] {
      if pending[0] !in p.items || !HasQuery(s, pending[0]) || !Contacts(p, s, pending[0]) {
        DrainOnlyAdds(p, forecast, s, pending[1..]);
      } else {
        DrainOnlyAdds(p, forecast, Quantum(p, forecast, s, pending[0]).0, pending[1..]);
      }
    }
  }

  lemma NappingIsNeutral(p: Plan, limit: nat, calmFrom: nat, s: Session, now: int)
    requires ValidSession(p, s) && now >= s.now && |p.window| > 0
    ensures ValidSession(p, s.(now := now))
  {
    hide Good, Invariant;
  }

  lemma ClockDoesNotCount(p: Plan, limit: nat, calmFrom: nat, s: Session, now: int, t: Session)
    requires |p.window| > 0
    ensures Lower(p, limit, calmFrom, s.(now := now), t) == Lower(p, limit, calmFrom, s, t)
    ensures Lower(p, limit, calmFrom, t, s.(now := now)) == Lower(p, limit, calmFrom, t, s)
  {}

  lemma PollLowers(p: Plan, forecast: nat -> Conditions, pick: Session -> seq<Item>, limit: nat, calmFrom: nat, s: Session, until: int)
    requires ValidSession(p, s) && Bounded(p, limit) && |p.window| > 0 && s.now < until
    requires forall n :: calmFrom <= n ==> Calm(forecast(n))
    ensures var next := NextPoll(p, forecast, pick, s, until);
      ValidSession(p, next) && (Lower(p, limit, calmFrom, next, s) || (next == s.(now := next.now) && s.now < next.now))
  {
    hide Bounded, Calm, Drain, TotalRank, ValidSession, Lower;
    DrainIsLawful(p, forecast, limit, calmFrom, s, pick(s));
    var (v, advanced) := Drain(p, forecast, s, pick(s));
    var next := NextPoll(p, forecast, pick, s, until);
    NappingIsNeutral(p, limit, calmFrom, v, next.now);
    ClockDoesNotCount(p, limit, calmFrom, v, next.now, s);
  }

  /** A wait reaches its deadline, or it has used the time to get on. */
  lemma {:induction false} WaitIsLawful(p: Plan, forecast: nat -> Conditions, pick: Session -> seq<Item>, limit: nat,
                                        calmFrom: nat, s: Session, until: int, polls: nat)
    requires ValidSession(p, s) && Bounded(p, limit) && |p.window| > 0
    requires forall n :: calmFrom <= n ==> Calm(forecast(n))
    ensures var next := WaitProductively(p, forecast, pick, s, until, polls);
      && ValidSession(p, next)
      && (Lower(p, limit, calmFrom, next, s) || (next == s.(now := next.now) && until <= next.now))
    decreases polls
  {
    hide Bounded, Calm, Drain, TotalRank, ValidSession, Lower;
    if polls == 0 || until <= s.now {
      NappingIsNeutral(p, limit, calmFrom, s, if s.now < until then until else s.now);
    } else {
      var napped := NextPoll(p, forecast, pick, s, until);
      PollLowers(p, forecast, pick, limit, calmFrom, s, until);
      var next := WaitProductively(p, forecast, pick, napped, until, polls - 1);
      assert next == WaitProductively(p, forecast, pick, s, until, polls);
      hide WaitProductively, NextPoll;
      WaitIsLawful(p, forecast, pick, limit, calmFrom, napped, until, polls - 1);
      ClockDoesNotCount(p, limit, calmFrom, s, napped.now, next);
      ClockDoesNotCount(p, limit, calmFrom, napped, next.now, s);
      LowerComposes(p, limit, calmFrom, next, napped, s);
    }
  }

  lemma LowerComposes(p: Plan, limit: nat, calmFrom: nat, a: Session, b: Session, c: Session)
    requires |p.window| > 0
    ensures Lower(p, limit, calmFrom, a, b) && Lower(p, limit, calmFrom, b, c) ==> Lower(p, limit, calmFrom, a, c)
  {}

  /** The wait comes to its deadline before its polls are used up. */
  ghost predicate EndsByItself(p: Plan, forecast: nat -> Conditions, pick: Session -> seq<Item>, s: Session, until: int, polls: nat)
    requires |p.window| > 0
    decreases polls
  {
    until <= s.now || (polls > 0 && EndsByItself(p, forecast, pick, NextPoll(p, forecast, pick, s, until), until, polls - 1))
  }

  /** The number of polls is no limit on a wait: it comes to its deadline by itself after finitely many, and with as many
      or more of them the result is the same. */
  lemma {:induction false} EnoughPolls(p: Plan, forecast: nat -> Conditions, pick: Session -> seq<Item>, limit: nat,
                                       calmFrom: nat, s: Session, until: int) returns (n: nat)
    requires ValidSession(p, s) && Bounded(p, limit) && |p.window| > 0
    requires forall n :: calmFrom <= n ==> Calm(forecast(n))
    ensures forall polls :: n <= polls ==>
      && EndsByItself(p, forecast, pick, s, until, polls)
      && WaitProductively(p, forecast, pick, s, until, polls) == WaitProductively(p, forecast, pick, s, until, n)
    decreases StormsLeft(calmFrom, s), TotalRank(p, s.world, p.items, limit), if s.now < until then until - s.now else 0
  {
    if until <= s.now {
      n := 0;
    } else {
      var next := NextPoll(p, forecast, pick, s, until);
      PollLowers(p, forecast, pick, limit, calmFrom, s, until);
      assert next == s.(now := next.now) ==> next.world == s.world && StormsLeft(calmFrom, next) == StormsLeft(calmFrom, s);
      var m := EnoughPolls(p, forecast, pick, limit, calmFrom, next, until);
      n := m + 1;
      hide Bounded, Calm, Drain, TotalRank, ValidSession, Lower;
      forall polls | n <= polls
        ensures EndsByItself(p, forecast, pick, s, until, polls)
        ensures WaitProductively(p, forecast, pick, s, until, polls) == WaitProductively(p, forecast, pick, s, until, n)
      {
        assert EndsByItself(p, forecast, pick, next, until, polls - 1);
        assert WaitProductively(p, forecast, pick, next, until, polls - 1) == WaitProductively(p, forecast, pick, next, until, m);
      }
    }
  }

  lemma NoContactIsStill(p: Plan, s: Session, item: Item, c: Conditions)
    requires ValidSession(p, s)
    ensures |p.window| > 0
    ensures !Contacts(p, s, item) ==>
      var (v, r) := AfterQuantum(p, s.world, item, c, s.now);
      && v == s.world
      && (|| (r.Complete? && item in v.db.checkpoints && AuditCheckpointComplete(p, item.platform, v.db.checkpoints[item]))
          || (r == Deferred(false, Due(p, s, item)) && s.now < Due(p, s, item)))
  {
    hide Invariant, AuditCheckpointComplete, AfterAthena, AfterCdx;
    if item in s.world.db.checkpoints {
      assert WithCheckpoint(s.world.db, item, s.world.db.checkpoints[item]).checkpoints == s.world.db.checkpoints;
    }
  }

  /** The pattern has been walked to its end. */
  ghost predicate Done(p: Plan, s: Session, item: Item)
    requires |p.window| > 0
  {
    item in s.world.db.checkpoints && AuditCheckpointComplete(p, item.platform, s.world.db.checkpoints[item])
  }

  lemma DoneStaysDone(p: Plan, forecast: nat -> Conditions, s: Session, item: Item, other: Item)
    requires ValidSession(p, s) && item in p.items
    ensures |p.window| > 0
    ensures var (next, r) := Quantum(p, forecast, s, item);
      (r.Complete? ==> Done(p, next, item)) && (Done(p, s, other) ==> Done(p, next, other))
  {
    var c := forecast(s.contacts);
    if Contacts(p, s, item) {
      ContactFacts(p, s.world, item, c, s.now);
      var row := Row(p, s.world.db, item);
      ReceiptCompletes(p, s.world, item, c, s.now);
      hide Good, Invariant, HowItEnds, AfterQuantum, AuditCheckpointComplete, Row, RowAfter, Reported, AwsAfter, FoundAws, GoodRow;
    } else {
      NoContactIsStill(p, s, item, c);
      hide Good, Invariant, AfterQuantum, AuditCheckpointComplete, Row;
    }
  }

  lemma ReceiptCompletes(p: Plan, w: World, item: Item, c: Conditions, now: int)
    requires Good(p) && Invariant(p, w) && Contacting(p, w, item, now)
    ensures AfterQuantum(p, w, item, c, now).1.Complete? ==>
      AuditCheckpointComplete(p, item.platform, Row(p, AfterQuantum(p, w, item, c, now).0.db, item))
  {
    assert |p.window| > 0;
    var row := Row(p, w.db, item);
    var found := w.(aws := FoundAws(p, w, row, c));
    ContactFacts(p, w, item, c, now);
    assert row.indexId in AuditIndexOrder(p, item.platform) && !CompletedThroughTarget(p, row);
    ReceiptProgress(p, item, row, now);
    hide Good, Invariant, HowItEnds, AfterQuantum, AuditCheckpointComplete, Row, AwsAfter, FoundAws, GoodRow, Contacting,
         LastIndex, AfterReceipt, RetryAt, IndicesLeft;
  }

  ghost predicate Callbacks(p: Plan, forecast: nat -> Conditions, pick: Session -> seq<Item>, polls: nat,
      runQuantum: (Session, Item) -> (Session, QuantumResult), waitUntil: (Session, int) -> Session,
      clock: Session -> int, valid: Session -> bool)
  {
    && |p.window| > 0
    && (forall s, i :: runQuantum(s, i) == Quantum(p, forecast, s, i))
    && (forall s, until :: waitUntil(s, until) == WaitProductively(p, forecast, pick, s, until, polls))
    && (forall s :: clock(s) == s.now)
    && (forall s :: valid(s) <==> ValidSession(p, s))
  }

  ghost predicate Measures(p: Plan, limit: nat, calmFrom: nat, due: (Session, Item) -> int, storms: Session -> nat,
                           work: Session -> nat, done: (Session, Item) -> bool)
  {
    && |p.window| > 0
    && (forall s, i :: due(s, i) == Due(p, s, i))
    && (forall s :: storms(s) == StormsLeft(calmFrom, s))
    && (forall s :: work(s) == TotalRank(p, s.world, p.items, limit))
    && (forall s, i :: done(s, i) <==> Done(p, s, i))
  }

  lemma CallbacksAreLawful(p: Plan, forecast: nat -> Conditions, pick: Session -> seq<Item>, polls: nat, limit: nat, calmFrom: nat,
      runQuantum: (Session, Item) -> (Session, QuantumResult), waitUntil: (Session, int) -> Session,
      clock: Session -> int, valid: Session -> bool, due: (Session, Item) -> int, storms: Session -> nat,
      work: Session -> nat, done: (Session, Item) -> bool)
    requires Callbacks(p, forecast, pick, polls, runQuantum, waitUntil, clock, valid)
    requires Measures(p, limit, calmFrom, due, storms, work, done)
    requires Bounded(p, limit) && forall n :: calmFrom <= n ==> Calm(forecast(n))
    ensures Lawful(p.items, runQuantum, waitUntil, clock, valid, due, storms, work)
  {
    hide Bounded, Calm, Quantum, Done, TotalRank, StormsLeft, Due, WaitProductively, ValidSession;
    forall s, item | valid(s) && item in p.items
      ensures LawfulQuantum(runQuantum, clock, valid, due, storms, work, s, item)
    {
      QuantumIsLawful(p, forecast, limit, calmFrom, s, item);
    }
    forall s, until | valid(s) ensures LawfulWait(waitUntil, clock, valid, due, storms, work, s, until) {
      WaitIsLawful(p, forecast, pick, limit, calmFrom, s, until, polls);
      SameWorldSameMeasures(p, limit, calmFrom, s, waitUntil(s, until).now);
    }
  }

  lemma CompletedStaysCompleted(p: Plan, forecast: nat -> Conditions, pick: Session -> seq<Item>, polls: nat, limit: nat, calmFrom: nat,
      runQuantum: (Session, Item) -> (Session, QuantumResult), waitUntil: (Session, int) -> Session,
      clock: Session -> int, valid: Session -> bool, due: (Session, Item) -> int, storms: Session -> nat,
      work: Session -> nat, done: (Session, Item) -> bool)
    requires Callbacks(p, forecast, pick, polls, runQuantum, waitUntil, clock, valid)
    requires Measures(p, limit, calmFrom, due, storms, work, done)
    ensures CompletionSticks(p.items, runQuantum, waitUntil, valid, done)
  {
    hide Quantum, Done, TotalRank, StormsLeft, Due, WaitProductively, ValidSession;
    forall s, item | valid(s) && item in p.items
      ensures var (next, r) := runQuantum(s, item);
        && valid(next) && (r.Complete? ==> done(next, item))
        && forall u :: u in p.items && done(s, u) ==> done(next, u)
    {
      QuantumStaysValid(p, forecast, s, item);
      DoneStaysDone(p, forecast, s, item, item);
      forall u | u in p.items && done(s, u) ensures done(runQuantum(s, item).0, u) {
        DoneStaysDone(p, forecast, s, item, u);
      }
    }
    forall s, until | valid(s)
      ensures valid(waitUntil(s, until))
      ensures forall u :: u in p.items && done(s, u) ==> done(waitUntil(s, until), u)
    {
      WaitKeepsDone(p, forecast, pick, s, until, polls, Item(Name(""), Name("")));
      forall u | u in p.items && done(s, u) ensures done(waitUntil(s, until), u) {
        WaitKeepsDone(p, forecast, pick, s, until, polls, u);
      }
    }
  }

  lemma SameWorldSameMeasures(p: Plan, limit: nat, calmFrom: nat, s: Session, now: int)
    requires |p.window| > 0
    ensures var t := s.(now := now);
      && StormsLeft(calmFrom, t) == StormsLeft(calmFrom, s)
      && TotalRank(p, t.world, p.items, limit) == TotalRank(p, s.world, p.items, limit)
      && forall i :: Due(p, t, i) == Due(p, s, i)
  {}

  lemma InitialSession(p: Plan, world: World, now: nat)
    requires Good(p) && Invariant(p, world) && world.worker.Idle? && world.db.run.status.Running?
    ensures ValidSession(p, Session(world, 0, now))
  {
    hide Good, Invariant;
  }

  /** The crawl phase ends. The scheduler may meet any answers at all for its first `calmFrom` contacts: broken
      reads, refused or lost submissions, queries that fail, are cancelled or expire; and its waits may drain any
      pending queries on the way. If the answers are good from then on and no source holds more than `limit` pages, it
      returns, and then each pattern has a receipt for each index of the window and every such index was completely
      read. */
  method CrawlEveryPattern(p: Plan, world: World, forecast: nat -> Conditions, pick: Session -> seq<Item>, polls: nat,
                           now: nat, ghost limit: nat, ghost calmFrom: nat)
    returns (final: Session, trace: Trace)
    requires Good(p) && Invariant(p, world) && world.worker.Idle? && world.db.run.status.Running?
    requires Bounded(p, limit) && forall n :: calmFrom <= n ==> Calm(forecast(n))
    ensures Invariant(p, final.world) && final.world.worker.Idle? && final.world.db.run.status.Running?
    ensures Disciplined(p.items, trace)
    ensures forall i, x :: i in p.items && x in p.window ==>
              (i, x) in final.world.db.receipts && CompletelyRead(p, final.world, i, x)
    ensures forall i :: i in p.items ==> Done(p, final, i)
  {
    var initial := Session(world, 0, now);
    var runQuantum := (s: Session, item: Item) => Quantum(p, forecast, s, item);
    var waitUntil := (s: Session, until: int) => WaitProductively(p, forecast, pick, s, until, polls);
    var clock := (s: Session) => s.now;
    ghost var valid := (s: Session) => ValidSession(p, s);
    ghost var due := (s: Session, item: Item) => Due(p, s, item);
    ghost var storms := (s: Session) => StormsLeft(calmFrom, s);
    ghost var work := (s: Session) => TotalRank(p, s.world, p.items, limit);
    ghost var done := (s: Session, item: Item) => Done(p, s, item);
    assert Callbacks(p, forecast, pick, polls, runQuantum, waitUntil, clock, valid) by {
      hide Quantum, WaitProductively, ValidSession;
    }
    assert Measures(p, limit, calmFrom, due, storms, work, done) by {
      hide Due, StormsLeft, TotalRank, Done;
    }
    hide Bounded, Calm, Quantum, Done, TotalRank, StormsLeft, Due, Lawful, CompletionSticks, Callbacks, Measures, WaitProductively, ValidSession;
    CallbacksAreLawful(p, forecast, pick, polls, limit, calmFrom, runQuantum, waitUntil, clock, valid, due, storms, work, done);
    CompletedStaysCompleted(p, forecast, pick, polls, limit, calmFrom, runQuantum, waitUntil, clock, valid, due, storms, work, done);
    assert valid(initial) by { InitialSession(p, world, now); }
    final, trace := RunCooperativeAuditWork(p.items, initial, runQuantum, waitUntil, clock, valid, due, storms, work);
    FinishedAreDone(p.items, runQuantum, waitUntil, clock, valid, done, initial, trace);
    forall i | i in p.items ensures Done(p, final, i) {
      assert done(final, i);
    }
    AllDoneIsCovered(p, final);
  }

  lemma {:induction false} DrainKeepsDone(p: Plan, forecast: nat -> Conditions, s: Session, pending: seq<Item>, other: Item)
    requires ValidSession(p, s) && |p.window| > 0
    ensures ValidSession(p, Drain(p, forecast, s, pending).0)
    ensures Done(p, s, other) ==> Done(p, Drain(p, forecast, s, pending).0, other)
    decreases |pending|
  {
    hide ValidSession, Contacts, Quantum, HasQuery, Done;
    if pending != [] {
      if pending[0] !in p.items || !HasQuery(s, pending[0]) || !Contacts(p, s, pending[0]) {
        DrainKeepsDone(p, forecast, s, pending[1..], other);
      } else {
        QuantumStaysValid(p, forecast, s, pending[0]);
        DoneStaysDone(p, forecast, s, pending[0], other);
        DrainKeepsDone(p, forecast, Quantum(p, forecast, s, pending[0]).0, pending[1..], other);
      }
    }
  }

  lemma {:induction false} WaitKeepsDone(p: Plan, forecast: nat -> Conditions, pick: Session -> seq<Item>, s: Session,
                                         until: int, polls: nat, other: Item)
    requires ValidSession(p, s) && |p.window| > 0
    ensures ValidSession(p, WaitProductively(p, forecast, pick, s, until, polls))
    ensures Done(p, s, other) ==> Done(p, WaitProductively(p, forecast, pick, s, until, polls), other)
    decreases polls
  {
    hide Good, Invariant, Drain;
    if polls > 0 && s.now < until {
      DrainKeepsDone(p, forecast, s, pick(s), other);
      WaitKeepsDone(p, forecast, pick, NextPoll(p, forecast, pick, s, until), until, polls - 1, other);
    }
  }

  lemma AllDoneIsCovered(p: Plan, s: Session)
    requires ValidSession(p, s) && |p.window| > 0 && forall i :: i in p.items ==> Done(p, s, i)
    ensures forall i, x :: i in p.items && x in p.window ==>
              (i, x) in s.world.db.receipts && CompletelyRead(p, s.world, i, x)
  {
    assert ReceiptsCovered(p, s.world);
    forall i, x | i in p.items && x in p.window
      ensures (i, x) in s.world.db.receipts && CompletelyRead(p, s.world, i, x)
    {
      assert Done(p, s, i);
      MarkerMeansAllReceipts(p, s.world.db, i);
    }
    assert forall i :: i in p.items ==> Done(p, s, i);
    hide Invariant, Good;
  }
}

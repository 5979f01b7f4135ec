/** Exactly when the direct API's "first empty page" really is the end of an index. */
module AuditGap {
  import opened Basics
  import opened AuditModel
  import opened AuditWalk
  import opened AuditSubmission
  import opened AuditCoverage
  import opened AuditSoundness

  function FirstPages(p: Plan, i: Item, pages: seq<Page>, n: nat): set<Candidate>
    requires n <= |pages|
  {
    if n == 0 then {} else FirstPages(p, i, pages, n - 1) + CandidatesOf(p, i.platform, pages[n-1])
  }

  /** What direct reads of the first `n` indexes of a walk contribute: their pages before the first empty one. */
  function PassedPages(p: Plan, i: Item, n: nat): set<Candidate>
    requires n <= |p.window|
  {
    if n == 0 then {}
    else
      var pages := p.source.cdx(i, AuditIndexOrder(p, i.platform)[n-1]);
      PassedPages(p, i, n - 1) + FirstPages(p, i, pages, FirstEmpty(pages))
  }

  /** No page behind the first empty one of the walk's index `k` adds a slug to what its direct reads found by then. */
  ghost predicate NothingNewBehindGap(p: Plan, i: Item, k: nat)
    requires k < |p.window|
  {
    var pages := p.source.cdx(i, AuditIndexOrder(p, i.platform)[k]);
    forall q :: FirstEmpty(pages) <= q < |pages| ==> CandidatesOf(p, i.platform, pages[q]) <= PassedPages(p, i, k + 1)
  }

  /** No query can have earned the receipt: all were verified dead, or have results that are not durable. */
  ghost predicate Direct(p: Plan, w: World, i: Item, x: IndexId) {
    forall e :: e in Paid(w, i, x) - w.verdicts ==> !ResultsFound(p, w.db, i, e)
  }

  /** The receipts of the first `k + 1` indexes of the walk are there, and all were earned by direct reads. */
  ghost predicate PassedDirectly(p: Plan, w: World, i: Item, k: nat)
    requires k < |p.window|
  {
    var order := AuditIndexOrder(p, i.platform);
    (i, order[k]) in w.db.receipts && forall j :: 0 <= j <= k ==> Direct(p, w, i, order[j])
  }

  ghost predicate AllPagesFound(p: Plan, w: World, i: Item, x: IndexId) {
    PagesFound(p, w.db, i, p.source.cdx(i, x), |p.source.cdx(i, x)|)
  }

  lemma {:induction false} FirstPagesAreFound(p: Plan, db: Database, i: Item, pages: seq<Page>, n: nat)
    requires n <= |pages| && PagesFound(p, db, i, pages, n)
    ensures FirstPages(p, i, pages, n) <= db.candidates.Keys
  {
    if n > 0 {
      FirstPagesAreFound(p, db, i, pages, n - 1);
      assert Found(p, db, i, pages[n-1]);
    }
  }

  lemma {:induction false} PassedPagesAreFound(p: Plan, db: Database, i: Item, n: nat)
    requires n <= |p.window|
    requires forall j :: 0 <= j < n ==>
      var pages := p.source.cdx(i, AuditIndexOrder(p, i.platform)[j]); PagesFound(p, db, i, pages, FirstEmpty(pages))
    ensures PassedPages(p, i, n) <= db.candidates.Keys
  {
    hide PagesFound, FirstPages;
    if n > 0 {
      var pages := p.source.cdx(i, AuditIndexOrder(p, i.platform)[n-1]);
      PassedPagesAreFound(p, db, i, n - 1);
      FirstPagesAreFound(p, db, i, pages, FirstEmpty(pages));
    }
  }

  /** A pattern's receipts begin at the start of its walk. */
  lemma EarlierReceipts(p: Plan, w: World, i: Item, k: nat)
    requires Good(p) && Walk(p, w.db) && k < |p.window| && (i, AuditIndexOrder(p, i.platform)[k]) in w.db.receipts
    ensures forall j :: 0 <= j <= k ==> (i, AuditIndexOrder(p, i.platform)[j]) in w.db.receipts
  {
    assert PatternsWalk(p, w.db) && ReceiptsInScope(p, w.db);
    assert PatternWalk(p, w.db, i);
  }

  // ----- a run that reads the first indexes of a walk directly -----

  ghost predicate ReadSoFar(p: Plan, i: Item, k: nat, n: nat, w: World)
    requires k < |p.window|
  {
    var order := AuditIndexOrder(p, i.platform);
    var pages := p.source.cdx(i, order[k]);
    && w.worker.Idle? && w.db.run.status.Running? && w.aws.log == []
    && i in w.db.checkpoints
    && w.db.checkpoints[i].indexId == order[k] && w.db.checkpoints[i].page == n
    && !CompletedThroughTarget(p, w.db.checkpoints[i])
    && n <= FirstEmpty(pages)
    && w.db.candidates.Keys == PassedPages(p, i, k) + FirstPages(p, i, pages, n)
  }

  lemma ReadOnePage(p: Plan, i: Item, k: nat, n: nat, w: World) returns (next: World)
    requires k < |p.window| && i in p.items && ReadSoFar(p, i, k, n, w)
    requires n < FirstEmpty(p.source.cdx(i, AuditIndexOrder(p, i.platform)[k]))
    ensures CanRun(p, w, [Load(i), ReadCdx, CommitPage(0)]) && RunSteps(p, w, [Load(i), ReadCdx, CommitPage(0)]) == next
    ensures ReadSoFar(p, i, k, n + 1, next)
  {
    hide CandidatesOf, IndexOf, PassedPages;
    var a := Apply(p, w, Load(i));
    var b := Apply(p, a, ReadCdx);
    next := Apply(p, b, CommitPage(0));
    ThreeSteps(p, w, Load(i), ReadCdx, CommitPage(0));
  }

  lemma ThreeSteps(p: Plan, w: World, r: Step, s: Step, t: Step)
    requires |p.window| > 0 && Enabled(p, w, r) && Enabled(p, Apply(p, w, r), s)
    requires Enabled(p, Apply(p, Apply(p, w, r), s), t)
    ensures CanRun(p, w, [r, s, t])
    ensures RunSteps(p, w, [r, s, t]) == Apply(p, Apply(p, Apply(p, w, r), s), t)
  {
    hide Enabled, Apply;
    var a := Apply(p, w, r);
    var b := Apply(p, a, s);
    var c := Apply(p, b, t);
    assert [r, s, t][1..] == [s, t] && [s, t][1..] == [t] && [t][1..] == [];
    assert CanRun(p, c, []) && RunSteps(p, c, []) == c;
    assert CanRun(p, b, [t]) && RunSteps(p, b, [t]) == c;
    assert CanRun(p, a, [s, t]) && RunSteps(p, a, [s, t]) == c;
  }

  lemma {:induction false} RunConcat(p: Plan, w: World, a: seq<Step>, b: seq<Step>)
    requires |p.window| > 0 && CanRun(p, w, a) && CanRun(p, RunSteps(p, w, a), b)
    ensures CanRun(p, w, a + b) && RunSteps(p, w, a + b) == RunSteps(p, RunSteps(p, w, a), b)
    decreases |a|
  {
    hide Enabled, Apply;
    if a == [] {
      assert a + b == b;
    } else {
      RunConcat(p, Apply(p, w, a[0]), a[1..], b);
      assert (a + b)[1..] == a[1..] + b;
    }
  }

  lemma EmptyPageEarns(p: Plan, i: Item, w: World) returns (next: World)
    requires |p.window| > 0 && i in p.items && i in w.db.checkpoints && w.worker.Idle? && w.db.run.status.Running?
    requires !CompletedThroughTarget(p, w.db.checkpoints[i])
    requires CdxPage(p, i, w.db.checkpoints[i].indexId, w.db.checkpoints[i].page) == []
    ensures CanRun(p, w, [Load(i), ReadCdx, EarnReceipt(0)]) && RunSteps(p, w, [Load(i), ReadCdx, EarnReceipt(0)]) == next
    ensures (i, w.db.checkpoints[i].indexId) in next.db.receipts && i in next.db.checkpoints
    ensures next.db.checkpoints[i] == AfterReceipt(p, i, w.db.checkpoints[i], 0)
    ensures next.worker.Idle? && next.db.run.status.Running? && next.aws == w.aws && next.db.candidates == w.db.candidates
  {
    hide CandidatesOf, IndexOf, AfterReceipt, CompletedThroughTarget, CdxPage;
    var a := Apply(p, w, Load(i));
    var b := Apply(p, a, ReadCdx);
    next := Apply(p, b, EarnReceipt(0));
    ThreeSteps(p, w, Load(i), ReadCdx, EarnReceipt(0));
  }

  /** The empty page earns the receipt and moves the walk on. */
  lemma EarnDirectly(p: Plan, i: Item, k: nat, w: World) returns (next: World)
    requires Good(p) && k < |p.window| && i in p.items
    requires ReadSoFar(p, i, k, FirstEmpty(p.source.cdx(i, AuditIndexOrder(p, i.platform)[k])), w)
    ensures CanRun(p, w, [Load(i), ReadCdx, EarnReceipt(0)]) && RunSteps(p, w, [Load(i), ReadCdx, EarnReceipt(0)]) == next
    ensures (i, AuditIndexOrder(p, i.platform)[k]) in next.db.receipts && next.aws.log == []
    ensures next.db.candidates.Keys == PassedPages(p, i, k + 1)
    ensures k + 1 < |p.window| ==> ReadSoFar(p, i, k + 1, 0, next)
  {
    OrderOfWindow(p, i.platform);
    IndexOfIsUnique(AuditIndexOrder(p, i.platform), k);
    ReceiptMovesOn(p, i, w.db.checkpoints[i], 0);
    hide CandidatesOf, IndexOf, CanRun, Good, Distinct, AuditIndexOrder, CompletedThroughTarget;
    assert k + 1 < |p.window| ==> AfterReceipt(p, i, w.db.checkpoints[i], 0).page == 0;
    next := EmptyPageEarns(p, i, w);
  }

  lemma {:induction false} ReachPlace(p: Plan, i: Item, k: nat, n: nat) returns (steps: seq<Step>)
    requires Good(p) && i in p.items && k < |p.window|
    requires n <= FirstEmpty(p.source.cdx(i, AuditIndexOrder(p, i.platform)[k]))
    ensures CanRun(p, InitialWorld(p), steps) && ReadSoFar(p, i, k, n, RunSteps(p, InitialWorld(p), steps))
    decreases k, n
  {
    var w := InitialWorld(p);
    if n > 0 {
      var before := ReachPlace(p, i, k, n - 1);
      hide Enabled, Apply, ReadSoFar, InitialWorld, Good;
      var next := ReadOnePage(p, i, k, n - 1, RunSteps(p, w, before));
      steps := before + [Load(i), ReadCdx, CommitPage(0)];
      RunConcat(p, w, before, [Load(i), ReadCdx, CommitPage(0)]);
    } else if k > 0 {
      var before := ReachPlace(p, i, k - 1, FirstEmpty(p.source.cdx(i, AuditIndexOrder(p, i.platform)[k-1])));
      hide Enabled, Apply, ReadSoFar, InitialWorld, Good;
      var next := EarnDirectly(p, i, k - 1, RunSteps(p, w, before));
      steps := before + [Load(i), ReadCdx, EarnReceipt(0)];
      RunConcat(p, w, before, [Load(i), ReadCdx, EarnReceipt(0)]);
    } else {
      steps := [];
    }
  }

  lemma RunIsReachable(p: Plan, steps: seq<Step>)
    requires Good(p) && CanRun(p, InitialWorld(p), steps)
    ensures Reachable(p, RunSteps(p, InitialWorld(p), steps))
  {
    var calls := [Invocation([], steps)];
    var w := InitialWorld(p);
    assert Expanded(p, []) == p by { assert p.items + [] == p.items; }
    assert w.db.run.status.Running?;
    hide Enabled, Apply, InitialWorld, Good;
    assert calls[1..] == [];
    assert CanLive(p, RunSteps(p, w, steps), calls[1..]);
    assert CanLive(p, w, calls);
    assert AfterLife(p, w, calls) == (p, RunSteps(p, w, steps));
  }

  /** Some run passes the walk's index `k` by direct reads alone, with nothing but the pages before the first empty ones
      in the candidate table. */
  lemma DirectReceipt(p: Plan, i: Item, k: nat) returns (w: World)
    requires Good(p) && i in p.items && k < |p.window|
    ensures Reachable(p, w) && PassedDirectly(p, w, i, k) && w.db.candidates.Keys == PassedPages(p, i, k + 1)
  {
    var before := ReachPlace(p, i, k, FirstEmpty(p.source.cdx(i, AuditIndexOrder(p, i.platform)[k])));
    var here := RunSteps(p, InitialWorld(p), before);
    w := EarnDirectly(p, i, k, here);
    var last := [Load(i), ReadCdx, EarnReceipt(0)];
    assert forall x :: Paid(w, i, x) == {};
    hide Enabled, Apply, ReadSoFar, InitialWorld, Good, PassedPages;
    RunConcat(p, InitialWorld(p), before, last);
    RunIsReachable(p, before + last);
  }

  lemma ReadDirectly(p: Plan, w: World, i: Item, x: IndexId)
    requires CompletelyRead(p, w, i, x) && Direct(p, w, i, x)
    ensures PagesFound(p, w.db, i, p.source.cdx(i, x), FirstEmpty(p.source.cdx(i, x)))
  {
    hide PagesFound, ResultsFound;
  }

  lemma PassedMeansRead(p: Plan, w: World, i: Item, k: nat)
    requires Reachable(p, w) && k < |p.window| && PassedDirectly(p, w, i, k)
    ensures forall j :: 0 <= j <= k ==>
      var pages := p.source.cdx(i, AuditIndexOrder(p, i.platform)[j]); PagesFound(p, w.db, i, pages, FirstEmpty(pages))
  {
    var order := AuditIndexOrder(p, i.platform);
    ReachableInvariant(p, w);
    CoverageIsCrashSafe(p, w, i);
    assert Walk(p, w.db);
    hide Reachable, Invariant, Good, AuditIndexOrder, Direct, CompletelyRead, PagesFound, Walk;
    EarlierReceipts(p, w, i, k);
    forall j | 0 <= j <= k
      ensures PagesFound(p, w.db, i, p.source.cdx(i, order[j]), FirstEmpty(p.source.cdx(i, order[j])))
    {
      ReadDirectly(p, w, i, order[j]);
    }
  }

  /** The half that matters: when nothing new stands behind the gap, direct receipts cover every page. */
  lemma GapHidesNothing(p: Plan, w: World, i: Item, k: nat)
    requires Reachable(p, w) && k < |p.window| && PassedDirectly(p, w, i, k) && NothingNewBehindGap(p, i, k)
    ensures AllPagesFound(p, w, i, AuditIndexOrder(p, i.platform)[k])
  {
    var pages := p.source.cdx(i, AuditIndexOrder(p, i.platform)[k]);
    PassedMeansRead(p, w, i, k);
    hide Reachable, PassedDirectly, PassedPages, AuditIndexOrder, CandidatesOf;
    PassedPagesAreFound(p, w.db, i, k + 1);
    assert PagesFound(p, w.db, i, pages, FirstEmpty(pages));
    forall q | 0 <= q < |pages| ensures Found(p, w.db, i, pages[q]) {
      if q < FirstEmpty(pages) { assert Found(p, w.db, i, pages[q]); }
    }
  }

  /** The program takes the first empty page of the direct API for the end of an index. At every place of every walk:
      in all worlds that passed it by direct reads, whatever queries failed on the way, all pages of its index have
      been found if and only if no page behind that empty one adds a slug to what those reads found by then. */
  lemma DirectReceiptCoversIndexIff(p: Plan, i: Item, k: nat)
    requires Good(p) && i in p.items && k < |p.window|
    ensures NothingNewBehindGap(p, i, k) <==>
      forall w :: Reachable(p, w) && PassedDirectly(p, w, i, k) ==> AllPagesFound(p, w, i, AuditIndexOrder(p, i.platform)[k])
  {
    var x := AuditIndexOrder(p, i.platform)[k];
    if NothingNewBehindGap(p, i, k) {
      hide NothingNewBehindGap, Reachable, PassedDirectly, AllPagesFound;
      forall w | Reachable(p, w) && PassedDirectly(p, w, i, k) ensures AllPagesFound(p, w, i, x) {
        GapHidesNothing(p, w, i, k);
      }
    } else {
      var pages := p.source.cdx(i, x);
      var q :| FirstEmpty(pages) <= q < |pages| && !(CandidatesOf(p, i.platform, pages[q]) <= PassedPages(p, i, k + 1));
      var w := DirectReceipt(p, i, k);
      assert !Found(p, w.db, i, pages[q]);
      hide Reachable, PassedDirectly, PassedPages;
      assert !AllPagesFound(p, w, i, x);
    }
  }

  const HOST := Item(Name("platform"), Name("*"))
  const CRAWL := Name("crawl")

  /** One pattern and one crawl, whose direct listing has an empty page before a page with a slug. */
  const GAPPED := Plan([HOST], [CRAWL], _ => false,
                       Source((_, _) => [[], [Some(Name("url"))]], _ => [[]], (_, url) => Some(url), _ => false))

  /** So slugs can be lost: the receipt is there, and the slug behind the gap is not. */
  lemma GapLosesSlug() returns (w: World)
    ensures Good(GAPPED) && Reachable(GAPPED, w) && (HOST, CRAWL) in w.db.receipts
    ensures Candidate(HOST.platform, Name("url")) in CandidatesOf(GAPPED, HOST.platform, GAPPED.source.cdx(HOST, CRAWL)[1])
    ensures w.db.candidates == map[]
  {
    var pages := GAPPED.source.cdx(HOST, CRAWL);
    assert AuditIndexOrder(GAPPED, HOST.platform) == [CRAWL] && FirstEmpty(pages) == 0;
    assert PassedPages(GAPPED, HOST, 1) == {};
    assert SlugOf(GAPPED, HOST.platform, pages[1][0]) == Some(Name("url")) && pages[1][0] in pages[1];
    hide Reachable;
    w := DirectReceipt(GAPPED, HOST, 0);
  }
}

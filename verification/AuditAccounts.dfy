/** The run's counters are conserved: receipts plus what unfinished patterns have read so far. */
module AuditAccounts {
  import opened Basics
  import opened AuditModel
  import opened AuditWalk

  function ReceiptOr0(db: Database, i: Item, x: IndexId): Counters {
    if (i, x) in db.receipts then db.receipts[(i, x)] else ZERO
  }

  function SumReceipts(db: Database, i: Item, xs: seq<IndexId>): Counters {
    if xs == [] then ZERO else SumReceipts(db, i, xs[..|xs|-1]).Plus(ReceiptOr0(db, i, xs[|xs|-1]))
  }

  /** The live counters of a pattern count until its last receipt takes them over. */
  function Live(p: Plan, db: Database, i: Item): Counters
    requires |p.window| > 0
  {
    if i in db.checkpoints && !CompletedThroughTarget(p, db.checkpoints[i]) then db.checkpoints[i].read else ZERO
  }

  function PatternTotal(p: Plan, db: Database, i: Item): Counters
    requires |p.window| > 0
  {
    SumReceipts(db, i, p.window).Plus(Live(p, db, i))
  }

  function GrandTotal(p: Plan, db: Database, items: seq<Item>): Counters
    requires |p.window| > 0
  {
    if items == [] then ZERO
    else GrandTotal(p, db, items[..|items|-1]).Plus(PatternTotal(p, db, items[|items|-1]))
  }

  /** The run has read exactly what its receipts and its live checkpoints add up to, and has queued exactly
      the rows of the candidate table. */
  ghost predicate Balanced(p: Plan, db: Database)
    requires |p.window| > 0
  {
    && db.run.read == GrandTotal(p, db, p.items)
    && db.run.read.queued == |db.candidates|
  }

  // ----- sums -----

  lemma {:induction false} SumReceiptsFrame(db: Database, next: Database, i: Item, xs: seq<IndexId>)
    requires forall x :: x in xs ==> ReceiptOr0(db, i, x) == ReceiptOr0(next, i, x)
    ensures SumReceipts(db, i, xs) == SumReceipts(next, i, xs)
  {
    if xs != [] { SumReceiptsFrame(db, next, i, xs[..|xs|-1]); }
  }

  /** One new receipt adds its counters to the pattern's sum once. */
  lemma {:induction false} SumReceiptsAdds(db: Database, next: Database, i: Item, xs: seq<IndexId>, x: IndexId)
    requires Distinct(xs) && x in xs && ReceiptOr0(db, i, x) == ZERO
    requires forall y :: y in xs && y != x ==> ReceiptOr0(db, i, y) == ReceiptOr0(next, i, y)
    ensures SumReceipts(next, i, xs) == SumReceipts(db, i, xs).Plus(ReceiptOr0(next, i, x))
  {
    hide ReceiptOr0;
    var front, last := xs[..|xs|-1], xs[|xs|-1];
    assert xs == front + [last];
    assert Distinct(front);
    if last == x {
      assert x !in front;
      SumReceiptsFrame(db, next, i, front);
    } else {
      assert x in front;
      SumReceiptsAdds(db, next, i, front, x);
    }
  }

  lemma {:induction false} GrandTotalFrame(p: Plan, db: Database, next: Database, items: seq<Item>)
    requires |p.window| > 0
    requires forall i :: i in items ==> PatternTotal(p, db, i) == PatternTotal(p, next, i)
    ensures GrandTotal(p, db, items) == GrandTotal(p, next, items)
  {
    if items != [] { GrandTotalFrame(p, db, next, items[..|items|-1]); }
  }

  lemma {:induction false} GrandTotalAdds(p: Plan, db: Database, next: Database, items: seq<Item>, i: Item, delta: Counters)
    requires |p.window| > 0 && Distinct(items) && i in items
    requires PatternTotal(p, next, i) == PatternTotal(p, db, i).Plus(delta)
    requires forall j :: j in items && j != i ==> PatternTotal(p, db, j) == PatternTotal(p, next, j)
    ensures GrandTotal(p, next, items) == GrandTotal(p, db, items).Plus(delta)
  {
    var front := items[..|items|-1];
    hide PatternTotal;
    if items[|items|-1] == i {
      forall j | j in front ensures PatternTotal(p, db, j) == PatternTotal(p, next, j) {}
      GrandTotalFrame(p, db, next, front);
    } else {
      GrandTotalAdds(p, db, next, front, i, delta);
    }
  }

  // ----- one pattern -----

  /** Two databases with the same receipts, and rows that read and finished alike. */
  ghost predicate SameAccounts(p: Plan, db: Database, next: Database)
    requires |p.window| > 0
  {
    && next.receipts == db.receipts && next.run.read == db.run.read && next.candidates.Keys == db.candidates.Keys
    && (forall i :: Live(p, next, i) == Live(p, db, i))
  }

  lemma SameAccountsBalanced(p: Plan, db: Database, next: Database)
    requires |p.window| > 0 && SameAccounts(p, db, next) && Balanced(p, db)
    ensures Balanced(p, next)
  {
    forall i | i in p.items ensures PatternTotal(p, db, i) == PatternTotal(p, next, i) {
      SumReceiptsFrame(db, next, i, p.window);
    }
    GrandTotalFrame(p, db, next, p.items);
    assert |next.candidates| == |next.candidates.Keys| == |db.candidates.Keys|;
  }

  lemma CommitTotals(p: Plan, db: Database, next: Database, i: Item, delta: Counters)
    requires Good(p) && i in p.items && next.receipts == db.receipts
    requires Live(p, next, i) == Live(p, db, i).Plus(delta)
    requires forall j :: j != i ==> Live(p, next, j) == Live(p, db, j)
    ensures GrandTotal(p, next, p.items) == GrandTotal(p, db, p.items).Plus(delta)
  {
    hide Live;
    SumReceiptsFrame(db, next, i, p.window);
    forall j | j in p.items && j != i ensures PatternTotal(p, db, j) == PatternTotal(p, next, j) {
      SumReceiptsFrame(db, next, j, p.window);
    }
    GrandTotalAdds(p, db, next, p.items, i, delta);
  }

  /** A receipt moves the live counters into the sum of receipts; the total is unchanged. */
  lemma ReceiptTotals(p: Plan, db: Database, next: Database, i: Item, x: IndexId)
    requires Good(p) && x in p.window && (i, x) !in db.receipts
    requires next.receipts == db.receipts[(i, x) := Live(p, db, i)] && Live(p, next, i) == ZERO
    requires forall j :: j != i ==> Live(p, next, j) == Live(p, db, j)
    ensures GrandTotal(p, next, p.items) == GrandTotal(p, db, p.items)
  {
    hide Live;
    forall j | j in p.items ensures PatternTotal(p, db, j) == PatternTotal(p, next, j) {
      if j == i { SumReceiptsAdds(db, next, i, p.window, x); }
      else { SumReceiptsFrame(db, next, j, p.window); }
    }
    GrandTotalFrame(p, db, next, p.items);
  }

  // ----- steps -----

  lemma QuietAccounts(p: Plan, w: World, s: Step)
    requires |p.window| > 0 && Enabled(p, w, s) && !s.Load? && !s.CommitPage? && !s.EarnReceipt?
    ensures SameAccounts(p, w.db, Apply(p, w, s).db)
  {
    hide CandidatesOf, WithCandidates, UnresolvedCount, AuditIndexOrder, IndexOf, ProofComplete, AuditCheckpointComplete,
         AfterReceipt;
  }

  lemma LoadAccounts(p: Plan, w: World, i: Item)
    requires |p.window| > 0 && Enabled(p, w, Load(i))
    ensures SameAccounts(p, w.db, Apply(p, w, Load(i)).db)
  {
    hide AuditIndexOrder, IndexOf, AuditCheckpointComplete;
  }

  /** Inserting skips the rows that are there, so the table grows by exactly the count that is reported. */
  lemma InsertCount(rows: map<Candidate, Status>, found: set<Candidate>)
    ensures |WithCandidates(rows, found)| == |rows| + |found - rows.Keys|
  {
    var all := WithCandidates(rows, found);
    assert all.Keys == rows.Keys + (found - rows.Keys);
    assert |all| == |all.Keys| && |rows| == |rows.Keys|;
  }

  lemma CommitAccountsEffect(p: Plan, w: World, now: int)
    requires |p.window| > 0 && Enabled(p, w, CommitPage(now)) && Attentive(p, w)
    ensures var next, i := Apply(p, w, CommitPage(now)).db, w.worker.item;
      var found := CandidatesOf(p, i.platform, w.worker.page);
      var delta := Counters(1, |w.worker.page|, |found - w.db.candidates.Keys|);
      && next.receipts == w.db.receipts && next.candidates == WithCandidates(w.db.candidates, found)
      && next.run.read == w.db.run.read.Plus(delta)
      && Live(p, next, i) == Live(p, w.db, i).Plus(delta)
      && (forall j :: j != i ==> Live(p, next, j) == Live(p, w.db, j))
  {
    hide CandidatesOf, WithCandidates, AuditIndexOrder, IndexOf;
  }

  lemma CommitBalanced(p: Plan, w: World, now: int)
    requires Good(p) && Enabled(p, w, CommitPage(now)) && Attentive(p, w) && PatternsWalk(p, w.db) && Balanced(p, w.db)
    ensures Balanced(p, Apply(p, w, CommitPage(now)).db)
  {
    var next, i := Apply(p, w, CommitPage(now)).db, w.worker.item;
    var found := CandidatesOf(p, i.platform, w.worker.page);
    var delta := Counters(1, |w.worker.page|, |found - w.db.candidates.Keys|);
    CommitAccountsEffect(p, w, now);
    InsertCount(w.db.candidates, found);
    assert i in p.items;
    hide Apply, Enabled, Live, CandidatesOf, WithCandidates, Attentive, PatternsWalk, Good;
    CommitTotals(p, w.db, next, i, delta);
  }

  lemma ReceiptAccountsEffect(p: Plan, w: World, now: int)
    requires Good(p) && Enabled(p, w, EarnReceipt(now)) && Attentive(p, w) && PatternWalk(p, w.db, w.worker.item)
    requires (w.worker.item, w.worker.seen.indexId) !in w.db.receipts
    ensures var next, i := Apply(p, w, EarnReceipt(now)).db, w.worker.item;
      && next.receipts == w.db.receipts[(i, w.worker.seen.indexId) := Live(p, w.db, i)]
      && next.candidates == w.db.candidates && next.run.read == w.db.run.read
      && Live(p, next, i) == ZERO
      && (forall j :: j != i ==> Live(p, next, j) == Live(p, w.db, j))
  {
    var i := w.worker.item;
    ReceiptMovesOn(p, i, w.db.checkpoints[i], now);
    hide AuditIndexOrder, IndexOf, PatternWalk, Good;
  }

  lemma ReceiptBalanced(p: Plan, w: World, now: int)
    requires Good(p) && Enabled(p, w, EarnReceipt(now)) && Attentive(p, w) && Walk(p, w.db) && Balanced(p, w.db)
    ensures Balanced(p, Apply(p, w, EarnReceipt(now)).db)
  {
    var next, i := Apply(p, w, EarnReceipt(now)).db, w.worker.item;
    assert PatternWalk(p, w.db, i);
    ReceiptKeepsWalk(p, w, now);
    ReceiptAccountsEffect(p, w, now);
    hide Apply, Enabled, Live, Attentive, PatternWalk, Walk;
    ReceiptTotals(p, w.db, next, i, w.worker.seen.indexId);
  }

  lemma StepKeepsBalanced(p: Plan, w: World, s: Step)
    requires Good(p) && Enabled(p, w, s) && Attentive(p, w) && Walk(p, w.db) && Balanced(p, w.db)
    ensures Balanced(p, Apply(p, w, s).db)
  {
    assert |p.window| > 0 && PatternsWalk(p, w.db);
    hide Apply, Enabled, Attentive, Walk, Balanced, Good, SameAccounts, PatternsWalk;
    if s.CommitPage? { CommitBalanced(p, w, s.now); }
    else if s.EarnReceipt? { ReceiptBalanced(p, w, s.now); }
    else {
      if s.Load? { LoadAccounts(p, w, s.item); } else { QuietAccounts(p, w, s); }
      SameAccountsBalanced(p, w.db, Apply(p, w, s).db);
    }
  }

  lemma {:induction false} FreshTotals(p: Plan, db: Database, items: seq<Item>)
    requires |p.window| > 0 && db.receipts == map[]
    requires forall i :: i in db.checkpoints ==> db.checkpoints[i].read == ZERO
    ensures GrandTotal(p, db, items) == ZERO
  {
    if items != [] {
      FreshTotals(p, db, items[..|items|-1]);
      NoReceipts(db, items[|items|-1], p.window);
    }
  }

  lemma {:induction false} NoReceipts(db: Database, i: Item, xs: seq<IndexId>)
    requires db.receipts == map[]
    ensures SumReceipts(db, i, xs) == ZERO
  {
    if xs != [] { NoReceipts(db, i, xs[..|xs|-1]); }
  }

  lemma InitialBalanced(p: Plan)
    requires |p.window| > 0
    ensures Balanced(p, InitialWorld(p).db)
  {
    FreshTotals(p, InitialWorld(p).db, p.items);
  }
}

/** The walk of each pattern over the window: receipts are the prefix already passed, in either direction. */
module AuditWalk {
  import opened Basics
  import opened AuditModel

  ghost predicate PatternWalk(p: Plan, db: Database, i: Item)
    requires |p.window| > 0 && i in db.checkpoints
  {
    var cp := db.checkpoints[i];
    var order := AuditIndexOrder(p, i.platform);
    && cp.indexId in order
    && (CompletedThroughTarget(p, cp) ==> cp.indexId == order[|order| - 1])
    && (forall k :: 0 <= k < |order| ==>
          ((i, order[k]) in db.receipts <==> k < IndexOf(order, cp.indexId) || CompletedThroughTarget(p, cp)))
  }

  function FinishedItems(p: Plan, db: Database): set<Item>
    requires |p.window| > 0
  {
    set i | i in db.checkpoints && CompletedThroughTarget(p, db.checkpoints[i])
  }

  ghost predicate PatternsWalk(p: Plan, db: Database)
    requires |p.window| > 0
  {
    forall i :: i in db.checkpoints ==> i in p.items && PatternWalk(p, db, i)
  }

  ghost predicate ReceiptsInScope(p: Plan, db: Database) {
    forall i, x :: (i, x) in db.receipts ==> i in db.checkpoints && x in p.window
  }

  ghost predicate FinishedCounted(p: Plan, db: Database)
    requires |p.window| > 0
  {
    db.run.completedPatterns == |FinishedItems(p, db)|
  }

  /** Every pattern is somewhere on its walk, and the run counts each finished pattern once. */
  ghost predicate Walk(p: Plan, db: Database)
    requires |p.window| > 0
  {
    PatternsWalk(p, db) && ReceiptsInScope(p, db) && FinishedCounted(p, db)
  }

  /** The worker's copy of the checkpoint is the current row, and it is not a finished one. */
  ghost predicate Attentive(p: Plan, w: World)
    requires |p.window| > 0
  {
    w.worker.Idle?
    || (&& w.worker.item in w.db.checkpoints
        && w.worker.seen == w.db.checkpoints[w.worker.item]
        && !CompletedThroughTarget(p, w.worker.seen))
  }

  // ----- the order of a walk -----

  lemma ReverseMembers<T>(s: seq<T>)
    ensures forall x :: x in Reverse(s) <==> x in s
    ensures Distinct(s) ==> Distinct(Reverse(s))
  {
    forall x ensures x in Reverse(s) <==> x in s {
      if x in s {
        var k :| 0 <= k < |s| && s[k] == x;
        assert Reverse(s)[|s| - 1 - k] == x;
      }
    }
  }

  /** Both directions visit exactly the window, each index once; newest-first starts at the target, forward ends there. */
  lemma OrderOfWindow(p: Plan, platform: Platform)
    requires Distinct(p.window) && |p.window| > 0
    ensures var order := AuditIndexOrder(p, platform);
      && Distinct(order) && (forall x :: x in order <==> x in p.window)
      && (if p.newestFirst(platform) then order[0] == Target(p) else order[|order| - 1] == Target(p))
  {
    ReverseMembers(p.window);
  }

  lemma IndexOfIsUnique<T>(s: seq<T>, k: nat)
    requires Distinct(s) && k < |s|
    ensures IndexOf(s, s[k]) == k
  {
    assert s[k] in s;
  }

  // ----- preservation -----

  lemma InitialWalk(p: Plan)
    requires Good(p)
    ensures Walk(p, InitialWorld(p).db) && Attentive(p, InitialWorld(p))
  {
    var db := InitialWorld(p).db;
    forall i | i in db.checkpoints ensures PatternWalk(p, db, i) {
      IndexOfIsUnique(AuditIndexOrder(p, i.platform), 0);
    }
    assert FinishedItems(p, db) == {};
  }

  /** The walk of a pattern depends on its place, its marker and its own receipts only. */
  lemma PatternWalkFrame(p: Plan, db: Database, next: Database, i: Item)
    requires |p.window| > 0 && i in db.checkpoints && i in next.checkpoints && PatternWalk(p, db, i)
    requires next.checkpoints[i].indexId == db.checkpoints[i].indexId
    requires next.checkpoints[i].completedThrough == db.checkpoints[i].completedThrough
    requires forall x :: (i, x) in next.receipts <==> (i, x) in db.receipts
    ensures PatternWalk(p, next, i)
  {}

  /** `next` differs from `db` in nothing the walk depends on. */
  ghost predicate SameWalk(db: Database, next: Database) {
    && next.receipts == db.receipts && next.run.completedPatterns == db.run.completedPatterns
    && next.checkpoints.Keys == db.checkpoints.Keys
    && forall j :: j in db.checkpoints ==>
        && next.checkpoints[j].indexId == db.checkpoints[j].indexId
        && next.checkpoints[j].completedThrough == db.checkpoints[j].completedThrough
  }

  lemma SameWalkPatterns(p: Plan, db: Database, next: Database)
    requires |p.window| > 0 && PatternsWalk(p, db) && SameWalk(db, next)
    ensures PatternsWalk(p, next)
  {
    forall j | j in next.checkpoints ensures j in p.items && PatternWalk(p, next, j) {
      PatternWalkFrame(p, db, next, j);
    }
  }

  lemma SameWalkFinished(p: Plan, db: Database, next: Database)
    requires |p.window| > 0 && FinishedCounted(p, db) && SameWalk(db, next)
    ensures FinishedCounted(p, next)
  {
    assert FinishedItems(p, next) == FinishedItems(p, db);
  }

  lemma SameWalkKept(p: Plan, db: Database, next: Database)
    requires |p.window| > 0 && Walk(p, db) && SameWalk(db, next)
    ensures Walk(p, next)
  {
    hide PatternWalk, FinishedItems;
    SameWalkPatterns(p, db, next);
    SameWalkFinished(p, db, next);
  }

  /** A row that is not yet complete for the quantum is not marked complete either. */
  lemma NotCompleteIsUnmarked(p: Plan, db: Database, i: Item)
    requires |p.window| > 0 && i in db.checkpoints && PatternWalk(p, db, i)
    requires !AuditCheckpointComplete(p, i.platform, db.checkpoints[i])
    ensures !CompletedThroughTarget(p, db.checkpoints[i])
  {}

  lemma NewRowWalks(p: Plan, db: Database, next: Database, i: Item)
    requires Good(p) && Walk(p, db) && i !in db.checkpoints && i in p.items
    requires next == WithCheckpoint(db, i, FreshCheckpoint(AuditIndexOrder(p, i.platform)[0]))
    ensures PatternsWalk(p, next)
  {
    IndexOfIsUnique(AuditIndexOrder(p, i.platform), 0);
    forall j | j in next.checkpoints ensures j in p.items && PatternWalk(p, next, j) {
      if j != i { PatternWalkFrame(p, db, next, j); }
    }
  }

  lemma NewRowFinished(p: Plan, db: Database, next: Database, i: Item)
    requires |p.window| > 0 && FinishedCounted(p, db) && i !in db.checkpoints
    requires next == WithCheckpoint(db, i, FreshCheckpoint(AuditIndexOrder(p, i.platform)[0]))
    ensures FinishedCounted(p, next)
  {
    assert FinishedItems(p, next) == FinishedItems(p, db);
  }

  lemma LoadKeepsWalk(p: Plan, w: World, i: Item)
    requires Good(p) && Walk(p, w.db) && Enabled(p, w, Load(i))
    ensures Walk(p, Apply(p, w, Load(i)).db) && Attentive(p, Apply(p, w, Load(i)))
  {
    var next := Apply(p, w, Load(i)).db;
    if i in w.db.checkpoints {
      assert PatternWalk(p, w.db, i);
      NotCompleteIsUnmarked(p, w.db, i);
      assert next.checkpoints == w.db.checkpoints;
    } else {
      hide PatternWalk, FinishedItems, AuditIndexOrder;
      NewRowWalks(p, w.db, next, i);
      NewRowFinished(p, w.db, next, i);
    }
  }

  /** A receipt moves the checkpoint one place on, or marks it complete on the last place. */
  lemma ReceiptMovesOn(p: Plan, i: Item, cp: Checkpoint, now: int)
    requires Good(p) && cp.indexId in AuditIndexOrder(p, i.platform) && !CompletedThroughTarget(p, cp)
    ensures var order := AuditIndexOrder(p, i.platform);
            var here, moved := IndexOf(order, cp.indexId), AfterReceipt(p, i, cp, now);
            if here + 1 < |order|
            then moved.indexId == order[here + 1] && IndexOf(order, moved.indexId) == here + 1
                 && !CompletedThroughTarget(p, moved)
            else moved.indexId == cp.indexId == order[|order| - 1] && CompletedThroughTarget(p, moved)
  {
    var order := AuditIndexOrder(p, i.platform);
    OrderOfWindow(p, i.platform);
    var here := IndexOf(order, cp.indexId);
    if here + 1 < |order| {
      IndexOfIsUnique(order, here + 1);
      assert order[here] != order[|order| - 1];
    }
  }

  lemma ReceiptOfPattern(p: Plan, db: Database, next: Database, i: Item, now: int)
    requires Good(p) && i in db.checkpoints && PatternWalk(p, db, i)
    requires !CompletedThroughTarget(p, db.checkpoints[i])
    requires next.checkpoints == db.checkpoints[i := AfterReceipt(p, i, db.checkpoints[i], now)]
    requires next.receipts.Keys == db.receipts.Keys + {(i, db.checkpoints[i].indexId)}
    ensures (i, db.checkpoints[i].indexId) !in db.receipts && db.checkpoints[i].indexId in p.window
    ensures PatternWalk(p, next, i)
  {
    var order := AuditIndexOrder(p, i.platform);
    var here := IndexOf(order, db.checkpoints[i].indexId);
    OrderOfWindow(p, i.platform);
    ReceiptMovesOn(p, i, db.checkpoints[i], now);
    assert (i, order[here]) !in db.receipts;
    hide AuditIndexOrder, AfterReceipt, IndexOf;
    forall k | 0 <= k < |order| ensures (i, order[k]) in next.receipts <==> k <= here {
      assert order[k] == order[here] <==> k == here;
    }
  }

  lemma ReceiptFinished(p: Plan, db: Database, next: Database, i: Item, moved: Checkpoint)
    requires |p.window| > 0 && FinishedCounted(p, db) && i in db.checkpoints
    requires !CompletedThroughTarget(p, db.checkpoints[i]) && next.checkpoints == db.checkpoints[i := moved]
    requires next.run.completedPatterns == db.run.completedPatterns + if CompletedThroughTarget(p, moved) then 1 else 0
    ensures FinishedCounted(p, next)
  {
    assert FinishedItems(p, next) == FinishedItems(p, db) + if CompletedThroughTarget(p, moved) then {i} else {};
  }

  lemma ReceiptPatterns(p: Plan, db: Database, next: Database, i: Item, now: int)
    requires Good(p) && PatternsWalk(p, db) && i in db.checkpoints && !CompletedThroughTarget(p, db.checkpoints[i])
    requires next.checkpoints == db.checkpoints[i := AfterReceipt(p, i, db.checkpoints[i], now)]
    requires next.receipts.Keys == db.receipts.Keys + {(i, db.checkpoints[i].indexId)}
    ensures PatternsWalk(p, next)
  {
    hide AfterReceipt;
    ReceiptOfPattern(p, db, next, i, now);
    forall j | j in next.checkpoints ensures j in p.items && PatternWalk(p, next, j) {
      if j != i { PatternWalkFrame(p, db, next, j); }
    }
  }

  lemma ReceiptEffect(p: Plan, w: World, now: int)
    requires |p.window| > 0 && Attentive(p, w) && Enabled(p, w, EarnReceipt(now))
    ensures var i := w.worker.item;
            var db, next := w.db, Apply(p, w, EarnReceipt(now)).db;
      && next.checkpoints == db.checkpoints[i := AfterReceipt(p, i, db.checkpoints[i], now)]
      && next.receipts.Keys == db.receipts.Keys + {(i, db.checkpoints[i].indexId)}
      && next.run.completedPatterns == db.run.completedPatterns +
           (if IndexOf(AuditIndexOrder(p, i.platform), db.checkpoints[i].indexId) + 1 >= |p.window| then 1 else 0)
  {}

  lemma ReceiptKeepsWalk(p: Plan, w: World, now: int)
    requires Good(p) && Walk(p, w.db) && Attentive(p, w) && Enabled(p, w, EarnReceipt(now))
    ensures Walk(p, Apply(p, w, EarnReceipt(now)).db)
    ensures (w.worker.item, w.worker.seen.indexId) !in w.db.receipts
    ensures w.worker.seen.indexId in p.window
  {
    var i, cp := w.worker.item, w.worker.seen;
    assert PatternWalk(p, w.db, i);
    ReceiptEffect(p, w, now);
    ReceiptMovesOn(p, i, cp, now);
    var db, next := w.db, Apply(p, w, EarnReceipt(now)).db;
    hide *;
    ReceiptOfPattern(p, db, next, i, now);
    ReceiptPatterns(p, db, next, i, now);
    ReceiptFinished(p, db, next, i, next.checkpoints[i]);
    ReceiptScope(p, db, next, (i, cp.indexId));
    WalkFromParts(p, next);
  }

  lemma WalkFromParts(p: Plan, db: Database)
    requires |p.window| > 0 && PatternsWalk(p, db) && ReceiptsInScope(p, db) && FinishedCounted(p, db)
    ensures Walk(p, db)
  {}

  lemma ReceiptScope(p: Plan, db: Database, next: Database, key: (Item, IndexId))
    requires ReceiptsInScope(p, db) && key.0 in next.checkpoints && key.1 in p.window
    requires next.checkpoints.Keys == db.checkpoints.Keys && next.receipts.Keys == db.receipts.Keys + {key}
    ensures ReceiptsInScope(p, next)
  {}

  lemma OtherStepsKeepPlaces(p: Plan, w: World, s: Step)
    requires |p.window| > 0 && Enabled(p, w, s) && !s.Load? && !s.EarnReceipt?
    ensures SameWalk(w.db, Apply(p, w, s).db)
  {
    hide CandidatesOf, WithCandidates, UnresolvedCount, AuditIndexOrder, IndexOf, ProofComplete;
  }

  lemma OtherStepsStayAttentive(p: Plan, w: World, s: Step)
    requires |p.window| > 0 && Enabled(p, w, s) && !s.Load? && !s.EarnReceipt? && Attentive(p, w)
    ensures Attentive(p, Apply(p, w, s))
  {
    hide CandidatesOf, WithCandidates, UnresolvedCount, AuditIndexOrder, IndexOf, ProofComplete;
  }

  lemma StepKeepsWalk(p: Plan, w: World, s: Step)
    requires Good(p) && Walk(p, w.db) && Attentive(p, w) && Enabled(p, w, s)
    ensures Walk(p, Apply(p, w, s).db) && Attentive(p, Apply(p, w, s))
  {
    assert |p.window| > 0;
    hide Walk, Good, ProofComplete;
    if s.Load? {
      LoadKeepsWalk(p, w, s.item);
    } else if s.EarnReceipt? {
      ReceiptKeepsWalk(p, w, s.now);
    } else {
      hide Apply, Attentive, SameWalk;
      OtherStepsKeepPlaces(p, w, s);
      OtherStepsStayAttentive(p, w, s);
      SameWalkKept(p, w.db, Apply(p, w, s).db);
    }
  }

  // ----- what the marker means -----

  /** In both directions the completion marker of a checkpoint equals the target exactly when every index of
      the window has its receipt, and then, and only then, the quantum calls the pattern complete. */
  lemma MarkerMeansAllReceipts(p: Plan, db: Database, i: Item)
    requires Good(p) && Walk(p, db) && i in db.checkpoints
    ensures CompletedThroughTarget(p, db.checkpoints[i]) <==> forall x :: x in p.window ==> (i, x) in db.receipts
    ensures AuditCheckpointComplete(p, i.platform, db.checkpoints[i]) <==> CompletedThroughTarget(p, db.checkpoints[i])
  {
    var cp := db.checkpoints[i];
    var order := AuditIndexOrder(p, i.platform);
    assert PatternWalk(p, db, i);
    OrderOfWindow(p, i.platform);
    var here := IndexOf(order, cp.indexId);
    hide IndexOf, Reverse, AuditIndexOrder;
    if !CompletedThroughTarget(p, cp) {
      assert (i, order[here]) !in db.receipts;
    } else {
      forall x | x in p.window ensures (i, x) in db.receipts {
        var k :| 0 <= k < |order| && order[k] == x;
      }
    }
  }

  /** The receipts of an unfinished pattern are exactly the part of its own order before its index. */
  lemma ReceiptsArePassedPrefix(p: Plan, db: Database, i: Item, x: IndexId)
    requires Good(p) && Walk(p, db) && i in db.checkpoints && x in p.window
    requires !CompletedThroughTarget(p, db.checkpoints[i])
    ensures var order := AuditIndexOrder(p, i.platform);
            (i, x) in db.receipts <==> IndexOf(order, x) < IndexOf(order, db.checkpoints[i].indexId)
  {
    var order := AuditIndexOrder(p, i.platform);
    assert PatternWalk(p, db, i);
    OrderOfWindow(p, i.platform);
    assert order[IndexOf(order, x)] == x;
  }
}

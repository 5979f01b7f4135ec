/** The order in which a pattern earns its receipts, over a whole run with all its invocations and crashes. */
module ReceiptOrder {
  import opened Basics
  import opened AuditModel
  import opened AuditWalk
  import opened AuditSoundness

  /** The indexes for which `steps` earn receipts of pattern `i`, oldest receipt first. */
  ghost function Earned(p: Plan, w: World, steps: seq<Step>, i: Item): seq<IndexId>
    requires |p.window| > 0 && CanRun(p, w, steps)
    decreases |steps|
  {
    if steps == [] then []
    else
      (if Earns(w, steps[0], i) then [w.worker.seen.indexId] else []) + Earned(p, Apply(p, w, steps[0]), steps[1..], i)
  }

  ghost function EarnedInLife(p: Plan, w: World, calls: seq<Invocation>, i: Item): seq<IndexId>
    requires CanLive(p, w, calls)
    decreases |calls|
  {
    if calls == [] then []
    else
      var q := Expanded(p, calls[0].more);
      Earned(q, w, calls[0].steps, i) + EarnedInLife(q, RunSteps(q, w, calls[0].steps), calls[1..], i)
  }

  /** The pattern has the receipts of the first `k` indexes of its walk, and no others of it. */
  ghost predicate HasFirst(order: seq<IndexId>, db: Database, i: Item, k: nat) {
    k <= |order| && forall j :: 0 <= j < |order| ==> ((i, order[j]) in db.receipts <==> j < k)
  }

  /** Whether the step earns a receipt of pattern `i`. */
  predicate Earns(w: World, s: Step, i: Item) {
    s.EarnReceipt? && (w.worker.Fetched? && w.worker.item == i && (i, w.worker.seen.indexId) !in w.db.receipts)
  }

  /** An unfinished pattern stands where its receipts end. */
  lemma PlaceIsCount(p: Plan, db: Database, i: Item, k: nat)
    requires Good(p) && i in db.checkpoints && PatternWalk(p, db, i) && !CompletedThroughTarget(p, db.checkpoints[i])
    requires HasFirst(AuditIndexOrder(p, i.platform), db, i, k)
    ensures k < |p.window| && db.checkpoints[i].indexId == AuditIndexOrder(p, i.platform)[k]
    ensures (i, db.checkpoints[i].indexId) !in db.receipts
  {
    var order := AuditIndexOrder(p, i.platform);
    var here := IndexOf(order, db.checkpoints[i].indexId);
    hide AuditIndexOrder, IndexOf;
    assert here < |order| && (i, order[here]) !in db.receipts;
    assert forall j :: 0 <= j < here ==> (i, order[j]) in db.receipts;
  }

  lemma OneMoreReceipt(order: seq<IndexId>, db: Database, next: Database, i: Item, k: nat)
    requires Distinct(order) && k < |order| && HasFirst(order, db, i, k)
    requires next.receipts.Keys == db.receipts.Keys + {(i, order[k])}
    ensures HasFirst(order, next, i, k + 1)
  {
    forall j | 0 <= j < |order| ensures (i, order[j]) in next.receipts <==> j < k + 1 {
      assert (i, order[j]) in next.receipts <==> (i, order[j]) in next.receipts.Keys;
    }
  }

  lemma SameReceipts(order: seq<IndexId>, db: Database, next: Database, i: Item, k: nat)
    requires HasFirst(order, db, i, k) && forall x :: (i, x) in next.receipts <==> (i, x) in db.receipts
    ensures HasFirst(order, next, i, k)
  {}

  /** A step leaves the receipts of a pattern alone, or earns the next one of its walk. */
  lemma StepEarnsNext(p: Plan, w: World, s: Step, i: Item, k: nat)
    requires Good(p) && Walk(p, w.db) && Attentive(p, w) && Enabled(p, w, s)
    requires HasFirst(AuditIndexOrder(p, i.platform), w.db, i, k)
    ensures Earns(w, s, i) ==> k < |p.window| && w.worker.seen.indexId == AuditIndexOrder(p, i.platform)[k]
    ensures HasFirst(AuditIndexOrder(p, i.platform), Apply(p, w, s).db, i, if Earns(w, s, i) then k + 1 else k)
  {
    var order := AuditIndexOrder(p, i.platform);
    var next := Apply(p, w, s);
    if s.EarnReceipt? && w.worker.item == i {
      assert PatternsWalk(p, w.db);
      ReceiptEffect(p, w, s.now);
      OrderOfWindow(p, i.platform);
      hide AuditIndexOrder, Walk, AfterReceipt, Apply, HasFirst, PatternWalk, Distinct;
      PlaceIsCount(p, w.db, i, k);
      OneMoreReceipt(order, w.db, next.db, i, k);
    } else {
      KeepsOtherReceipts(p, w, s, i);
      hide *;
      SameReceipts(order, w.db, next.db, i, k);
      assert !Earns(w, s, i) by { NotEarning(w, s, i); }
    }
  }

  lemma NotEarning(w: World, s: Step, i: Item)
    requires s.EarnReceipt? ==> w.worker.Fetched? && w.worker.item != i
    ensures !Earns(w, s, i)
  {}

  lemma KeepsOtherReceipts(p: Plan, w: World, s: Step, i: Item)
    requires |p.window| > 0 && Enabled(p, w, s) && !(s.EarnReceipt? && w.worker.item == i)
    ensures forall x :: (i, x) in Apply(p, w, s).db.receipts <==> (i, x) in w.db.receipts
  {
    hide CandidatesOf, WithCandidates, UnresolvedCount, AuditIndexOrder, IndexOf, ProofComplete, AuditCheckpointComplete,
         AfterReceipt;
  }

  lemma RunBegins(p: Plan, w: World, steps: seq<Step>, i: Item)
    requires |p.window| > 0 && CanRun(p, w, steps) && steps != []
    ensures Enabled(p, w, steps[0])
    ensures var next := Apply(p, w, steps[0]);
      && CanRun(p, next, steps[1..]) && RunSteps(p, w, steps) == RunSteps(p, next, steps[1..])
      && Earned(p, w, steps, i)
         == (if Earns(w, steps[0], i) then [w.worker.seen.indexId] else []) + Earned(p, next, steps[1..], i)
  {
    hide Enabled, Apply, Earns;
  }

  lemma InvariantWalks(p: Plan, w: World)
    requires |p.window| > 0 && Invariant(p, w)
    ensures Walk(p, w.db) && Attentive(p, w)
  {
    hide Walk, Attentive, CompleteIsProved;
  }

  lemma {:induction false} RunEarnsInOrder(p: Plan, w: World, steps: seq<Step>, i: Item, k: nat) returns (n: nat)
    requires |p.window| > 0 && Good(p) && Invariant(p, w) && CanRun(p, w, steps)
    requires HasFirst(AuditIndexOrder(p, i.platform), w.db, i, k)
    ensures k <= n <= |AuditIndexOrder(p, i.platform)|
    ensures HasFirst(AuditIndexOrder(p, i.platform), RunSteps(p, w, steps).db, i, n)
    ensures Earned(p, w, steps, i) == AuditIndexOrder(p, i.platform)[k..n]
    decreases |steps|
  {
    hide *;
    var order := AuditIndexOrder(p, i.platform);
    if steps == [] {
      n := k;
      BoundOf(order, w.db, i, k);
      NothingEarned(p, w, i);
    } else {
      RunBegins(p, w, steps, i);
      InvariantWalks(p, w);
      StepEarnsNext(p, w, steps[0], i, k);
      StepKeepsInvariant(p, w, steps[0]);
      var next, earns := Apply(p, w, steps[0]), Earns(w, steps[0], i);
      n := RunEarnsInOrder(p, next, steps[1..], i, if earns then k + 1 else k);
      if earns { assert order[k..n] == [order[k]] + order[k+1..n]; } else { assert [] + order[k..n] == order[k..n]; }
    }
  }

  lemma NothingEarned(p: Plan, w: World, i: Item)
    requires |p.window| > 0
    ensures CanRun(p, w, []) && RunSteps(p, w, []) == w && Earned(p, w, [], i) == []
  {
    hide Enabled, Apply;
  }

  lemma BoundOf(order: seq<IndexId>, db: Database, i: Item, k: nat)
    requires HasFirst(order, db, i, k)
    ensures k <= |order|
  {}

  lemma LifeBegins(p: Plan, w: World, calls: seq<Invocation>, i: Item)
    requires CanLive(p, w, calls) && calls != []
    ensures var q := Expanded(p, calls[0].more);
      && w.db.run.status.Running? && |q.window| > 0 && Good(q) && CanRun(q, w, calls[0].steps)
      && q.window == p.window && q.newestFirst == p.newestFirst
      && AuditIndexOrder(q, i.platform) == AuditIndexOrder(p, i.platform)
    ensures var q := Expanded(p, calls[0].more);
            var next := RunSteps(q, w, calls[0].steps);
      && CanLive(q, next, calls[1..]) && AfterLife(p, w, calls) == AfterLife(q, next, calls[1..])
      && EarnedInLife(p, w, calls, i) == Earned(q, w, calls[0].steps, i) + EarnedInLife(q, next, calls[1..], i)
  {
    hide CanRun, RunSteps, Earned;
    assert |Expanded(p, calls[0].more).window| > 0;
    hide Good;
  }

  lemma LifeIsOver(p: Plan, w: World, i: Item)
    ensures CanLive(p, w, []) && AfterLife(p, w, []) == (p, w) && EarnedInLife(p, w, [], i) == []
  {}

  lemma {:induction false} LifeEarnsInOrder(p: Plan, w: World, calls: seq<Invocation>, i: Item, k: nat) returns (n: nat)
    requires Good(p) && |p.window| > 0 && Invariant(p, w) && CanLive(p, w, calls)
    requires HasFirst(AuditIndexOrder(p, i.platform), w.db, i, k)
    ensures var (q, v) := AfterLife(p, w, calls);
      && q.window == p.window && q.newestFirst == p.newestFirst && Good(q) && Invariant(q, v)
      && k <= n <= |AuditIndexOrder(p, i.platform)| && HasFirst(AuditIndexOrder(p, i.platform), v.db, i, n)
    ensures EarnedInLife(p, w, calls, i) == AuditIndexOrder(p, i.platform)[k..n]
    decreases |calls|
  {
    hide *;
    var order := AuditIndexOrder(p, i.platform);
    if calls == [] {
      n := k;
      BoundOf(order, w.db, i, k);
      LifeIsOver(p, w, i);
    } else {
      var q := Expanded(p, calls[0].more);
      LifeBegins(p, w, calls, i);
      ExpansionKeepsInvariant(p, calls[0].more, w);
      RunKeepsInvariant(q, w, calls[0].steps);
      var m := RunEarnsInOrder(q, w, calls[0].steps, i, k);
      n := LifeEarnsInOrder(q, RunSteps(q, w, calls[0].steps), calls[1..], i, m);
      assert order[k..n] == order[k..m] + order[m..n];
    }
  }

  lemma FinishedHasAll(p: Plan, db: Database, i: Item, n: nat)
    requires Good(p) && Walk(p, db) && i in db.checkpoints && CompletedThroughTarget(p, db.checkpoints[i])
    requires HasFirst(AuditIndexOrder(p, i.platform), db, i, n)
    ensures n == |AuditIndexOrder(p, i.platform)|
  {
    var order := AuditIndexOrder(p, i.platform);
    MarkerMeansAllReceipts(p, db, i);
    OrderOfWindow(p, i.platform);
    hide Walk, AuditIndexOrder, CompletedThroughTarget;
    assert order[|order|-1] in order;
    assert (i, order[|order|-1]) in db.receipts;
  }

  lemma NothingAtFirst(p: Plan, i: Item)
    requires |p.window| > 0
    ensures HasFirst(AuditIndexOrder(p, i.platform), InitialWorld(p).db, i, 0)
  {}

  /** Whatever crashed and was resumed: a finished pattern earned its receipts exactly in the order of its walk. */
  lemma FinishedPatternEarnedItsWalk(first: Plan, calls: seq<Invocation>, i: Item)
    requires Good(first) && |first.window| > 0 && CanLive(first, InitialWorld(first), calls)
    requires var (p, w) := AfterLife(first, InitialWorld(first), calls);
      |p.window| > 0 && i in w.db.checkpoints && CompletedThroughTarget(p, w.db.checkpoints[i])
    ensures var (p, w) := AfterLife(first, InitialWorld(first), calls);
      p.window == first.window && p.newestFirst == first.newestFirst
    ensures EarnedInLife(first, InitialWorld(first), calls, i) == AuditIndexOrder(first, i.platform)
  {
    hide *;
    var order := AuditIndexOrder(first, i.platform);
    InitialInvariant(first);
    NothingAtFirst(first, i);
    var (p, w) := AfterLife(first, InitialWorld(first), calls);
    var n := LifeEarnsInOrder(first, InitialWorld(first), calls, i, 0);
    InvariantWalks(p, w);
    assert AuditIndexOrder(p, i.platform) == order by { SameOrder(p, first, i); }
    FinishedHasAll(p, w.db, i, n);
    assert order[0..n] == order;
  }

  lemma SameOrder(p: Plan, q: Plan, i: Item)
    requires p.window == q.window && p.newestFirst == q.newestFirst
    ensures AuditIndexOrder(p, i.platform) == AuditIndexOrder(q, i.platform)
  {}
}

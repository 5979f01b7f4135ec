/** The index window of a run: what a new run has to cover, and how a resumed run finds its window again. */
module RunWindows {
  import opened Basics
  import opened AuditModel
  import opened AuditWalk
  import opened AuditSoundness
  import opened ReceiptOrder

  datatype Result<T> = Ok(value: T) | Error

  type Coverage = set<(Item, IndexId)>

  // ----- what is missing -----

  /** Coverage is never transferred between patterns: one pattern without a receipt is enough. */
  predicate LacksCoverage(x: IndexId, items: seq<Item>, covered: Coverage) {
    exists i :: i in items && (i, x) !in covered
  }

  function FirstMissing(indices: seq<IndexId>, items: seq<Item>, covered: Coverage): (k: nat)
    ensures k <= |indices|
  {
    if indices == [] || LacksCoverage(indices[0], items, covered) then 0
    else 1 + FirstMissing(indices[1..], items, covered)
  }

  function AuditIndicesMissingCoverage(indices: seq<IndexId>, items: seq<Item>, covered: Coverage): seq<IndexId> {
    indices[FirstMissing(indices, items, covered)..]
  }

  /** The window is the shortest suffix of the catalog that contains every uncovered pattern and index: dropping
      `k` entries from the front loses nothing uncovered exactly when the window is at most what remains. */
  lemma {:induction false} WindowIsShortestSuffix(indices: seq<IndexId>, items: seq<Item>, covered: Coverage, k: nat)
    requires k <= |indices|
    ensures (forall j :: 0 <= j < k ==> !LacksCoverage(indices[j], items, covered))
            <==> |AuditIndicesMissingCoverage(indices, items, covered)| <= |indices| - k
    ensures AuditIndicesMissingCoverage(indices, items, covered)
            == indices[|indices| - |AuditIndicesMissingCoverage(indices, items, covered)|..]
  {
    if k > 0 && !LacksCoverage(indices[0], items, covered) {
      WindowIsShortestSuffix(indices[1..], items, covered, k - 1);
      assert forall j :: 0 <= j < k - 1 ==> indices[1..][j] == indices[j+1];
      if forall j :: 0 <= j < k - 1 ==> !LacksCoverage(indices[1..][j], items, covered) {
        forall j | 0 <= j < k ensures !LacksCoverage(indices[j], items, covered) {
          if j > 0 { assert indices[j] == indices[1..][j-1]; }
        }
      }
    }
  }

  /** Nothing is left to do exactly when every configured pattern has every index of the catalog. */
  lemma NothingMissingIff(indices: seq<IndexId>, items: seq<Item>, covered: Coverage)
    ensures AuditIndicesMissingCoverage(indices, items, covered) == []
            <==> Product(items, indices) <= covered
  {
    WindowIsShortestSuffix(indices, items, covered, |indices|);
    if AuditIndicesMissingCoverage(indices, items, covered) == [] {
      forall key | key in Product(items, indices) ensures key in covered {
        var k :| 0 <= k < |indices| && indices[k] == key.1;
        assert !LacksCoverage(indices[k], items, covered);
      }
    } else {
      WindowIsShortestSuffix(indices, items, covered, FirstMissing(indices, items, covered) + 1);
      var j :| 0 <= j < |indices| && LacksCoverage(indices[j], items, covered);
      var i :| i in items && (i, indices[j]) !in covered;
      assert (i, indices[j]) in Product(items, indices);
    }
  }

  /** A completed run over the window leaves nothing missing. */
  lemma OneRunCoversAll(indices: seq<IndexId>, items: seq<Item>, covered: Coverage)
    ensures Product(items, indices) <= covered + Product(items, AuditIndicesMissingCoverage(indices, items, covered))
  {
    var window := AuditIndicesMissingCoverage(indices, items, covered);
    var k := |indices| - |window|;
    WindowIsShortestSuffix(indices, items, covered, k);
    forall key | key in Product(items, indices) ensures key in covered + Product(items, window) {
      var j :| 0 <= j < |indices| && indices[j] == key.1;
      if j < k { assert !LacksCoverage(indices[j], items, covered); } else { assert window[j - k] == key.1; }
    }
  }

  // ----- finding the window again -----

  /** What the database keeps of a run's window. */
  datatype RunRow = RunRow(indexCount: nat, target: IndexId, patternCount: nat, patterns: seq<Item>)

  function AuditRunIndexSequence(indexCount: nat, target: IndexId, allIndices: seq<IndexId>): Result<seq<IndexId>> {
    var targetPosition := IndexOf(allIndices, target);
    if targetPosition == |allIndices| then Error
    else
      var firstPosition := targetPosition - indexCount + 1;
      if firstPosition < 0 then Error
      else if firstPosition > targetPosition then Ok([])
      else Ok(allIndices[firstPosition..targetPosition + 1])
  }

  predicate StandsAt(catalog: seq<IndexId>, window: seq<IndexId>, k: nat) {
    k + |window| <= |catalog| && catalog[k..k + |window|] == window
  }

  lemma StandingIsFound(window: seq<IndexId>, catalog: seq<IndexId>, k: nat)
    requires |window| > 0 && Distinct(catalog) && StandsAt(catalog, window, k)
    ensures AuditRunIndexSequence(|window|, window[|window|-1], catalog) == Ok(window)
  {
    var target := window[|window|-1];
    assert catalog[k..k + |window|][|window| - 1] == catalog[k + |window| - 1];
    IndexOfIsUnique(catalog, k + |window| - 1);
    assert IndexOf(catalog, target) == k + |window| - 1;
    hide IndexOf, Distinct;
  }

  /** The window is found again exactly when it still stands in the catalog in one piece. */
  lemma WindowFoundIff(window: seq<IndexId>, catalog: seq<IndexId>)
    requires |window| > 0 && Distinct(catalog)
    ensures AuditRunIndexSequence(|window|, window[|window|-1], catalog) == Ok(window)
            <==> exists k: nat :: StandsAt(catalog, window, k)
  {
    var target := window[|window|-1];
    if k: nat :| StandsAt(catalog, window, k) { StandingIsFound(window, catalog, k); }
    hide Distinct;
    if AuditRunIndexSequence(|window|, target, catalog) == Ok(window) {
      assert StandsAt(catalog, window, IndexOf(catalog, target) - |window| + 1);
    }
  }

  /** Entries appended to the catalog after a run was created do not move its window. */
  lemma WindowSurvivesNewerEntries(indices: seq<IndexId>, newer: seq<IndexId>, items: seq<Item>, covered: Coverage)
    requires Distinct(indices + newer) && AuditIndicesMissingCoverage(indices, items, covered) != []
    ensures var window := AuditIndicesMissingCoverage(indices, items, covered);
            AuditRunIndexSequence(|window|, window[|window|-1], indices + newer) == Ok(window)
  {
    var window := AuditIndicesMissingCoverage(indices, items, covered);
    var k := |indices| - |window|;
    WindowIsShortestSuffix(indices, items, covered, k);
    assert StandsAt(indices + newer, window, k);
    StandingIsFound(window, indices + newer, k);
  }

  // ----- resuming without the catalog -----

  function VerifiedAuditIndexSequence(indexCount: nat, target: IndexId, indexIds: seq<IndexId>): Option<seq<IndexId>> {
    if |indexIds| != indexCount then None
    else if |set x | x in indexIds| != |indexIds| then None
    else if indexIds == [] || indexIds[|indexIds|-1] != target then None
    else Some(indexIds)
  }

  /** A sequence stands in for the catalog exactly when it has the run's length, names no index twice and ends with the
      target. */
  lemma VerifiedIff(indexCount: nat, target: IndexId, indexIds: seq<IndexId>)
    ensures VerifiedAuditIndexSequence(indexCount, target, indexIds) ==
      if |indexIds| == indexCount && Distinct(indexIds) && indexIds != [] && indexIds[|indexIds|-1] == target
      then Some(indexIds) else None
  {
    if Distinct(indexIds) { SetOfDistinct(indexIds); } else { Repeated(indexIds); }
  }

  lemma {:induction false} Repeated<T>(s: seq<T>)
    requires !Distinct(s)
    ensures |set x | x in s| < |s|
  {
    var front, last := s[..|s|-1], s[|s|-1];
    assert s == front + [last];
    if Distinct(front) {
      SetOfDistinct(front);
      assert last in front;
      assert (set x | x in s) == set x | x in front;
    } else {
      Repeated(front);
      assert (set x | x in s) == (set x | x in front) + {last};
    }
  }

  lemma SequenceOfOrderIff(p: Plan, platform: Platform)
    requires Good(p)
    ensures var found := VerifiedAuditIndexSequence(|p.window|, Target(p), AuditIndexOrder(p, platform));
            && (found == Some(p.window) <==> !p.newestFirst(platform) || |p.window| == 1)
            && (found == None <==> p.newestFirst(platform) && |p.window| > 1)
  {
    var order := AuditIndexOrder(p, platform);
    OrderOfWindow(p, platform);
    SetOfDistinct(order);
    if p.newestFirst(platform) {
      assert order[|order|-1] == p.window[0];
      if |p.window| == 1 { assert order == p.window; }
    }
  }

  /** When the catalog is unavailable, the receipts of one completed pattern, in the order they were earned over all
      invocations of the run, stand in for it. They reproduce the window exactly when that pattern walked forward, or
      had a single index to walk: the receipts of a newest-first pattern end with the oldest index, and the program
      gives up. */
  lemma DurableSequenceIff(first: Plan, calls: seq<Invocation>, i: Item)
    requires Good(first) && |first.window| > 0 && CanLive(first, InitialWorld(first), calls)
    requires var (p, w) := AfterLife(first, InitialWorld(first), calls);
      |p.window| > 0 && i in w.db.checkpoints && CompletedThroughTarget(p, w.db.checkpoints[i])
    ensures var (p, w) := AfterLife(first, InitialWorld(first), calls);
            var earned := EarnedInLife(first, InitialWorld(first), calls, i);
            var found := VerifiedAuditIndexSequence(|p.window|, Target(p), earned);
            && (found == Some(p.window) <==> !p.newestFirst(i.platform) || |p.window| == 1)
            && (found == None <==> p.newestFirst(i.platform) && |p.window| > 1)
  {
    FinishedPatternEarnedItsWalk(first, calls, i);
    SequenceOfOrderIff(first, i.platform);
    hide InitialWorld, CanLive, AfterLife, EarnedInLife, Good, AuditIndexOrder, VerifiedAuditIndexSequence, CompletedThroughTarget;
  }

  // ----- the local walk -----

  function Dedupe<T(==,!new)>(s: seq<T>): (r: seq<T>)
    ensures forall x :: x in r <==> x in s
    ensures Distinct(r)
  {
    if s == [] then []
    else
      var front, last := Dedupe(s[..|s|-1]), s[|s|-1];
      assert s == s[..|s|-1] + [last];
      if last in front then front else front + [last]
  }

  function Without<T(==,!new)>(s: seq<T>, out: seq<T>): (r: seq<T>)
    ensures forall x :: x in r <==> x in s && x !in out
    ensures Distinct(s) ==> Distinct(r)
  {
    if s == [] then []
    else
      var front, last := Without(s[..|s|-1], out), s[|s|-1];
      assert s == s[..|s|-1] + [last];
      if last in out then front else front + [last]
  }

  function LocalAuditIndexOrder(indices: seq<IndexId>, running: seq<IndexId>): Result<seq<IndexId>> {
    var active := Dedupe(running);
    if exists x :: x in active && x !in indices then Error
    else Ok(active + Without(Reverse(indices), active))
  }

  /** A local scan visits every index of the window once, those already in progress first, in their own order; it
      refuses exactly when a saved scan lies outside the window. */
  lemma LocalOrderIsAPermutation(indices: seq<IndexId>, running: seq<IndexId>)
    requires Distinct(indices)
    ensures LocalAuditIndexOrder(indices, running).Ok? <==> forall x :: x in running ==> x in indices
    ensures LocalAuditIndexOrder(indices, running).Ok? ==>
      var order := LocalAuditIndexOrder(indices, running).value;
      && Distinct(order) && multiset(order) == multiset(indices)
      && |Dedupe(running)| <= |order| && order[..|Dedupe(running)|] == Dedupe(running)
  {
    var active := Dedupe(running);
    ReverseMembers(indices);
    var rest := Without(Reverse(indices), active);
    if forall x :: x in running ==> x in indices {
      assert forall x :: x in active + rest <==> x in indices;
      forall i, j | 0 <= i < j < |active + rest| ensures (active + rest)[i] != (active + rest)[j] {
        if i < |active| <= j { assert rest[j - |active|] in rest; }
      }
      DistinctSameMembers(active + rest, indices);
    }
  }

  /** What a local scan has not begun comes after what it has, newest first: recent job pages before history. */
  lemma LocalOrderIsNewestFirst(indices: seq<IndexId>, running: seq<IndexId>, a: nat, b: nat)
    requires a < b < |indices| && indices[a] !in running && indices[b] !in running
    requires LocalAuditIndexOrder(indices, running).Ok?
    ensures var order := LocalAuditIndexOrder(indices, running).value;
      exists i, j :: |Dedupe(running)| <= i < j < |order| && order[i] == indices[b] && order[j] == indices[a]
  {
    hide *;
    LocalOrderParts(indices, running);
    NewestFirstWithout(indices, Dedupe(running), a, b);
    BehindPrefix(Dedupe(running), Without(Reverse(indices), Dedupe(running)), indices[b], indices[a]);
  }

  lemma LocalOrderParts(indices: seq<IndexId>, running: seq<IndexId>)
    requires LocalAuditIndexOrder(indices, running).Ok?
    ensures LocalAuditIndexOrder(indices, running).value == Dedupe(running) + Without(Reverse(indices), Dedupe(running))
  {}

  lemma NewestFirstWithout(indices: seq<IndexId>, out: seq<IndexId>, a: nat, b: nat)
    requires a < b < |indices| && indices[a] !in out && indices[b] !in out
    ensures var rest := Without(Reverse(indices), out);
      exists i, j :: 0 <= i < j < |rest| && rest[i] == indices[b] && rest[j] == indices[a]
  {
    hide Without;
    WithoutKeepsOrder(Reverse(indices), out, |indices| - 1 - b, |indices| - 1 - a);
  }

  lemma BehindPrefix(front: seq<IndexId>, rest: seq<IndexId>, x: IndexId, y: IndexId)
    requires exists i, j :: 0 <= i < j < |rest| && rest[i] == x && rest[j] == y
    ensures exists i, j :: |front| <= i < j < |front + rest| && (front + rest)[i] == x && (front + rest)[j] == y
  {
    var i, j :| 0 <= i < j < |rest| && rest[i] == x && rest[j] == y;
    assert (front + rest)[|front| + i] == x && (front + rest)[|front| + j] == y;
  }

  lemma {:induction false} WithoutKeepsOrder<T(!new)>(s: seq<T>, out: seq<T>, a: nat, b: nat)
    requires a < b < |s| && s[a] !in out && s[b] !in out
    ensures exists i, j :: 0 <= i < j < |Without(s, out)| && Without(s, out)[i] == s[a] && Without(s, out)[j] == s[b]
    decreases |s|
  {
    var front, last := s[..|s|-1], s[|s|-1];
    var r := Without(s, out);
    if b < |s| - 1 {
      WithoutKeepsOrder(front, out, a, b);
      var i, j :| 0 <= i < j < |Without(front, out)| && Without(front, out)[i] == front[a] && Without(front, out)[j] == front[b];
      assert r[i] == s[a] && r[j] == s[b];
    } else {
      assert s[a] in front && s[a] in Without(front, out);
      var i :| 0 <= i < |Without(front, out)| && Without(front, out)[i] == s[a];
      assert r[i] == s[a] && r[|r|-1] == s[b];
    }
  }

  lemma {:induction false} DistinctCount<T>(s: seq<T>, x: T)
    requires Distinct(s)
    ensures multiset(s)[x] == if x in s then 1 else 0
  {
    if s != [] {
      var front, last := s[..|s|-1], s[|s|-1];
      assert s == front + [last];
      DistinctCount(front, x);
    }
  }

  lemma DistinctSameMembers<T>(a: seq<T>, b: seq<T>)
    requires Distinct(a) && Distinct(b) && forall x :: x in a <==> x in b
    ensures multiset(a) == multiset(b)
  {
    forall x ensures multiset(a)[x] == multiset(b)[x] {
      DistinctCount(a, x);
      DistinctCount(b, x);
    }
  }

  // ----- the whole invocation -----

  /** Configured patterns first, then the saved ones that are no longer configured. */
  function AuditWorkItems(configured: seq<Item>, unfinished: Option<RunRow>): seq<Item> {
    if unfinished.None? then Dedupe(configured) else Dedupe(configured + unfinished.value.patterns)
  }

  /** An unfinished run is resumed, whatever the catalog offers by now; otherwise a run is created when there is
      anything to cover. */
  function CreateOrResumeRun(indices: seq<IndexId>, unfinished: Option<RunRow>, items: seq<Item>, covered: Coverage)
      : Result<Option<RunRow>>
  {
    if unfinished.Some? then
      if |items| < unfinished.value.patternCount then Error
      else Ok(Some(unfinished.value.(patternCount := |items|)))
    else if indices == [] then Error
    else
      var window := AuditIndicesMissingCoverage(indices, items, covered);
      if window == [] then Ok(None)
      else Ok(Some(RunRow(|window|, window[|window|-1], |items|, items)))
  }

  /** Why an invocation cannot start, or cannot go on. */
  predicate Refuses(catalog: seq<IndexId>, configured: seq<Item>, unfinished: Option<RunRow>) {
    || (unfinished.None? && catalog == [])
    || (&& unfinished.Some?
        && (|| |AuditWorkItems(configured, unfinished)| < unfinished.value.patternCount
            || unfinished.value.target !in catalog
            || IndexOf(catalog, unfinished.value.target) + 1 < unfinished.value.indexCount))
  }

  /** The run created when nothing is unfinished: its window reaches from the first index that some pattern lacks to the
      newest, and it takes on exactly the configured patterns. */
  ghost predicate FreshRun(row: RunRow, catalog: seq<IndexId>, configured: seq<Item>, covered: Coverage) {
    && 1 <= row.indexCount <= |catalog| && row.target == catalog[|catalog|-1]
    && LacksCoverage(catalog[|catalog| - row.indexCount], configured, covered)
    && (forall j :: 0 <= j < |catalog| - row.indexCount ==> !LacksCoverage(catalog[j], configured, covered))
    && Distinct(row.patterns) && |row.patterns| == row.patternCount && forall i :: i in row.patterns <==> i in configured
  }

  lemma SameLack(x: IndexId, items: seq<Item>, configured: seq<Item>, covered: Coverage)
    requires forall i :: i in items <==> i in configured
    ensures LacksCoverage(x, items, covered) == LacksCoverage(x, configured, covered)
  {}

  lemma {:induction false} FirstMissingLacks(indices: seq<IndexId>, items: seq<Item>, covered: Coverage)
    ensures var k := FirstMissing(indices, items, covered);
      && (k < |indices| ==> LacksCoverage(indices[k], items, covered))
      && forall j :: 0 <= j < k ==> !LacksCoverage(indices[j], items, covered)
  {
    if indices != [] && !LacksCoverage(indices[0], items, covered) { FirstMissingLacks(indices[1..], items, covered); }
  }

  lemma CreatedRunIsFresh(catalog: seq<IndexId>, configured: seq<Item>, covered: Coverage)
    requires var run := CreateOrResumeRun(catalog, None, AuditWorkItems(configured, None), covered); run.Ok? && run.value.Some?
    ensures FreshRun(CreateOrResumeRun(catalog, None, AuditWorkItems(configured, None), covered).value.value, catalog, configured, covered)
  {
    var items := AuditWorkItems(configured, None);
    FirstMissingLacks(catalog, items, covered);
    forall x ensures LacksCoverage(x, items, covered) == LacksCoverage(x, configured, covered) {
      SameLack(x, items, configured, covered);
    }
    hide LacksCoverage, FirstMissing;
  }

  lemma FirstPlaceStays<T(!new)>(front: seq<T>, last: T, x: T)
    ensures x in front ==> IndexOf(front + [last], x) == IndexOf(front, x)
    ensures x !in front && x == last ==> IndexOf(front + [last], x) == |front|
  {
    var r := IndexOf(front + [last], x);
    if x in front { assert (front + [last])[IndexOf(front, x)] == x; }
    if r < |front| { assert front[r] == (front + [last])[r]; }
  }

  /** Of what is listed more than once the first place counts. */
  lemma {:induction false} DedupeKeepsOrder<T(!new)>(s: seq<T>, i: nat, j: nat)
    requires i < j < |Dedupe(s)|
    ensures IndexOf(s, Dedupe(s)[i]) < IndexOf(s, Dedupe(s)[j]) < |s|
  {
    var front, last := s[..|s|-1], s[|s|-1];
    assert s == front + [last];
    var r := Dedupe(front);
    assert r[i] in front;
    FirstPlaceStays(front, last, r[i]);
    if j < |r| {
      FirstPlaceStays(front, last, r[j]);
      DedupeKeepsOrder(front, i, j);
    } else {
      FirstPlaceStays(front, last, last);
    }
  }

  /** A round that starts without an unfinished run. */
  lemma FreshRound(catalog: seq<IndexId>, configured: seq<Item>, covered: Coverage)
    requires Distinct(catalog)
    ensures var items := AuditWorkItems(configured, None);
            var run := CreateOrResumeRun(catalog, None, items, covered);
      && (run.Error? <==> catalog == [])
      && (run == Ok(None) <==> catalog != [] && Product(configured, catalog) <= covered)
      && (run.Ok? && run.value.Some? ==>
            var window := AuditRunIndexSequence(run.value.value.indexCount, run.value.value.target, catalog);
            window.Ok? && Product(configured, catalog) <= covered + Product(items, window.value))
  {
    var items := AuditWorkItems(configured, None);
    SameProduct(items, configured, catalog);
    NothingMissingIff(catalog, items, covered);
    OneRunCoversAll(catalog, items, covered);
    assert catalog + [] == catalog;
    if AuditIndicesMissingCoverage(catalog, items, covered) != [] {
      WindowSurvivesNewerEntries(catalog, [], items, covered);
    }
    hide Product, AuditIndicesMissingCoverage, AuditRunIndexSequence;
  }

  /** A round that resumes one. */
  lemma ResumedRound(catalog: seq<IndexId>, configured: seq<Item>, unfinished: RunRow, covered: Coverage)
    ensures var items := AuditWorkItems(configured, Some(unfinished));
            var run := CreateOrResumeRun(catalog, Some(unfinished), items, covered);
      && (run.Ok? ==> run.value == Some(unfinished.(patternCount := |items|)))
      && (Refuses(catalog, configured, Some(unfinished)) <==>
            run.Error? || AuditRunIndexSequence(unfinished.indexCount, unfinished.target, catalog).Error?)
  {
    hide AuditWorkItems;
  }

  lemma NothingUnfinished(catalog: seq<IndexId>, configured: seq<Item>)
    ensures Refuses(catalog, configured, None) <==> catalog == []
    ensures forall run :: !Refuses(catalog, configured, Some(run)) ==> catalog != []
  {}

  lemma SameProduct(items: seq<Item>, configured: seq<Item>, window: seq<IndexId>)
    requires forall i :: i in configured ==> i in items
    ensures Product(configured, window) <= Product(items, window)
    ensures (forall i :: i in items <==> i in configured) ==> Product(configured, window) == Product(items, window)
  {}
}

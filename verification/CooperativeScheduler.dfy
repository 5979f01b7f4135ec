/**
 * The cooperative scheduler of the Common Crawl audit: one page at a time across every incomplete
 * URL pattern, a global backoff after three consecutive failed pages, and an idle wait when no
 * pattern may be contacted yet.
 *
 * The callbacks of the program are passed as pure functions over a state `S` that holds everything
 * they may touch, so the whole call is one function of the initial state. What the scheduler did is
 * recorded in a trace, and the guarantees are statements about that trace.
 */
module CooperativeScheduler {
  import opened Basics
  import opened RetryPolicy
  import opened CyclicArithmetic

  datatype QuantumResult =
    | Complete
    | Advanced
    | Deferred(attempted: bool, retryAt: int)

  datatype Event =
    | Visit(position: nat, outcome: Option<QuantumResult>) // None: the item was already complete
    | Backoff(milliseconds: nat)
    | IdleWait(until: int)
  {
    predicate Ran() { Visit? && outcome.Some? }
    predicate Succeeded() { Ran() && !outcome.value.Deferred? }
    predicate Struck() { Ran() && outcome.value.Deferred? && outcome.value.attempted }
    predicate HeldBack() { Ran() && outcome.value.Deferred? && !outcome.value.attempted }
  }

  type Trace = seq<Event>

  // ----- what a trace says -----

  /** How many list positions were passed, counting the ones skipped as complete. */
  function Visits(t: Trace): nat {
    if t == [] then 0
    else Visits(t[..|t|-1]) + if t[|t|-1].Visit? then 1 else 0
  }

  /** Failed requests since the last success or global backoff. */
  function Strikes(t: Trace): nat {
    if t == [] then 0
    else
      var e := t[|t|-1];
      if e.Succeeded() || e.Backoff? then 0
      else Strikes(t[..|t|-1]) + if e.Struck() then 1 else 0
  }

  /** Global backoffs since the last success. */
  function Streak(t: Trace): nat {
    if t == [] then 0
    else
      var e := t[|t|-1];
      if e.Succeeded() then 0 else Streak(t[..|t|-1]) + if e.Backoff? then 1 else 0
  }

  /** The items that have reported completion. */
  function Finished<T>(items: seq<T>, t: Trace): set<T> {
    if t == [] then {}
    else
      var e := t[|t|-1];
      var before := Finished(items, t[..|t|-1]);
      if e.Ran() && e.outcome.value.Complete? && e.position < |items|
      then before + {items[e.position]} else before
  }

  /** The last `n` events are one full round in which every item run was still cooling down, and
      `until` is the earliest retry time any of them gave. */
  ghost predicate QuietRound(t: Trace, n: nat, until: int) {
    && n <= |t|
    && (forall k :: |t| - n <= k < |t| ==>
          t[k].Visit? && (t[k].Ran() ==> t[k].HeldBack() && until <= t[k].outcome.value.retryAt))
    && (exists k :: |t| - n <= k < |t| && t[k].HeldBack() && t[k].outcome.value.retryAt == until)
  }

  /** `e` may follow `t`: the walk is cyclic, completed items and only those are skipped, the third
      strike is answered by a backoff before anything else, and idling needs a quiet round. */
  ghost predicate MayFollow<T>(items: seq<T>, t: Trace, e: Event) {
    match e
    case Visit(position, outcome) =>
      && |items| > 0 && position == Place(Visits(t), |items|)
      && (outcome.None? <==> items[position] in Finished(items, t))
      && Strikes(t) < 3
    case Backoff(ms) => Strikes(t) == 3 && ms == CommonCrawlPageRetryDelay(Streak(t) + 1)
    case IdleWait(until) => Strikes(t) < 3 && QuietRound(t, |items|, until)
  }

  ghost predicate Disciplined<T>(items: seq<T>, t: Trace) {
    forall k :: 0 <= k < |t| ==> MayFollow(items, t[..k], t[k])
  }

  // ----- the callbacks -----

  /** What one event does to the state. */
  function After<S, T>(items: seq<T>, runQuantum: (S, T) -> (S, QuantumResult), waitUntil: (S, int) -> S,
                       now: S -> int, s: S, e: Event): S
  {
    match e
    case Visit(position, outcome) =>
      if outcome.Some? && position < |items| then runQuantum(s, items[position]).0 else s
    case Backoff(ms) => waitUntil(s, now(s) + ms)
    case IdleWait(until) => waitUntil(s, until)
  }

  /** The state reached by the events of `t`. */
  function Replay<S, T>(items: seq<T>, runQuantum: (S, T) -> (S, QuantumResult), waitUntil: (S, int) -> S,
                        now: S -> int, s: S, t: Trace): S
  {
    if t == [] then s
    else After(items, runQuantum, waitUntil, now,
               Replay(items, runQuantum, waitUntil, now, s, t[..|t|-1]), t[|t|-1])
  }

  /** Every outcome in `t` is the one the callback returned in the state it was run in. */
  ghost predicate Faithful<S, T>(items: seq<T>, runQuantum: (S, T) -> (S, QuantumResult),
                                 waitUntil: (S, int) -> S, now: S -> int, s: S, t: Trace)
  {
    t != [] ==>
      var before := t[..|t|-1];
      var e := t[|t|-1];
      && Faithful(items, runQuantum, waitUntil, now, s, before)
      && (e.Ran() && e.position < |items| ==>
            e.outcome.value == runQuantum(Replay(items, runQuantum, waitUntil, now, s, before), items[e.position]).1)
  }

  /** `a` has strictly less work ahead than `b`: fewer bad answers to come, or as many and less to read. */
  ghost predicate Below<S>(storms: S -> nat, work: S -> nat, a: S, b: S) {
    storms(a) < storms(b) || (storms(a) == storms(b) && work(a) < work(b))
  }

  /** A quantum either uses up work, or it changes nothing because the item is complete or still
      cooling down until `due`. */
  ghost predicate LawfulQuantum<S(!new), T(!new)>(runQuantum: (S, T) -> (S, QuantumResult), now: S -> int,
      valid: S -> bool, due: (S, T) -> int, storms: S -> nat, work: S -> nat, s: S, t: T)
  {
    var (next, r) := runQuantum(s, t);
    && valid(next)
    && (|| Below(storms, work, next, s)
        || (next == s && r.Complete?)
        || (next == s && r == Deferred(false, due(s, t)) && now(s) < due(s, t)))
  }

  /** Waiting reaches its deadline, unless it used the time to do work. */
  ghost predicate LawfulWait<S(!new), T(!new)>(waitUntil: (S, int) -> S, now: S -> int,
      valid: S -> bool, due: (S, T) -> int, storms: S -> nat, work: S -> nat, s: S, until: int)
  {
    var next := waitUntil(s, until);
    && valid(next)
    && (|| Below(storms, work, next, s)
        || (storms(next) == storms(s) && work(next) == work(s) && until <= now(next)
            && forall t :: due(next, t) == due(s, t)))
  }

  ghost predicate Lawful<S(!new), T(!new)>(items: seq<T>, runQuantum: (S, T) -> (S, QuantumResult),
      waitUntil: (S, int) -> S, now: S -> int, valid: S -> bool, due: (S, T) -> int, storms: S -> nat, work: S -> nat)
  {
    && (forall s, t :: valid(s) && t in items ==> LawfulQuantum(runQuantum, now, valid, due, storms, work, s, t))
    && (forall s, until :: valid(s) ==> LawfulWait(waitUntil, now, valid, due, storms, work, s, until))
  }

  ghost predicate SomeDue<S, T>(now: S -> int, due: (S, T) -> int, s: S, incomplete: set<T>) {
    exists t :: t in incomplete && due(s, t) <= now(s)
  }

  // ----- the scheduler -----

  /** The trace so far explains the state, the next place, the failure counters and what is still incomplete. */
  ghost predicate Explained<S(!new), T(!new)>(items: seq<T>,
      runQuantum: (S, T) -> (S, QuantumResult), waitUntil: (S, int) -> S, now: S -> int,
      initial: S, trace: Trace, state: S, incomplete: set<T>, place: nat,
      consecutiveFailures: nat, globalFailureRounds: nat)
  {
    && place < |items|
    && place == Place(Visits(trace), |items|)
    && state == Replay(items, runQuantum, waitUntil, now, initial, trace)
    && Faithful(items, runQuantum, waitUntil, now, initial, trace)
    && Disciplined(items, trace)
    && consecutiveFailures == Strikes(trace)
    && globalFailureRounds == Streak(trace)
    && Finished(items, trace) <= (set t | t in items)
    && incomplete == (set t | t in items) - Finished(items, trace)
  }

  /** The events after `base` are the visits of the first `offset` places from `start`; none was contactable,
      and `earliest` is the least retry time they gave. */
  ghost predicate Quiet<T>(items: seq<T>, trace: Trace, base: nat, incomplete: set<T>,
                           start: nat, offset: nat, earliest: Option<int>)
    requires start < |items|
  {
    && |trace| == base + offset
    && (forall k :: base <= k < |trace| ==>
          && trace[k].Visit?
          && (trace[k].Ran() ==>
                (trace[k].HeldBack() && earliest.Some? && earliest.value <= trace[k].outcome.value.retryAt)))
    && (earliest.Some? ==>
          (exists k :: base <= k < |trace| && trace[k].HeldBack() && trace[k].outcome.value.retryAt == earliest.value))
    && (forall p {:trigger items[p]} :: 0 <= p < |items| && Ahead(start, p, |items|) < offset && items[p] in incomplete ==>
          earliest.Some?)
  }

  /** Every incomplete item among the first `offset` places from `start` is cooling down, none before `earliest`. */
  ghost predicate Cooling<S, T>(items: seq<T>, now: S -> int, due: (S, T) -> int, s: S, incomplete: set<T>,
                                start: nat, offset: nat, earliest: Option<int>)
    requires start < |items|
  {
    && (forall p {:trigger items[p]} :: 0 <= p < |items| && Ahead(start, p, |items|) < offset && items[p] in incomplete ==>
          now(s) < due(s, items[p]))
    && (earliest.Some? ==> exists t :: t in incomplete && due(s, t) == earliest.value)
  }

  function Sooner(earliest: Option<int>, retryAt: int): Option<int> {
    if earliest.None? || retryAt < earliest.value then Some(retryAt) else earliest
  }

  lemma OnlyOneMore(start: nat, offset: nat, n: nat)
    requires start < n && offset < n
    ensures forall p :: 0 <= p < n && Ahead(start, p, n) < offset + 1 ==>
        Ahead(start, p, n) < offset || p == Place(start + offset, n)
  {}

  lemma StaysQuiet<T>(items: seq<T>, trace: Trace, base: nat, incomplete: set<T>,
                      start: nat, offset: nat, earliest: Option<int>, e: Event)
    requires start < |items| && offset < |items|
    requires Quiet(items, trace, base, incomplete, start, offset, earliest)
    requires e.Visit? && e.position == Place(start + offset, |items|)
    requires if items[e.position] in incomplete then e.HeldBack() else e.outcome.None?
    ensures Quiet(items, trace + [e], base, incomplete, start, offset + 1,
                  if e.Ran() then Sooner(earliest, e.outcome.value.retryAt) else earliest)
  {
    OnlyOneMore(start, offset, |items|);
    var sooner := if e.Ran() then Sooner(earliest, e.outcome.value.retryAt) else earliest;
    var after := trace + [e];
    if sooner.Some? {
      if sooner == earliest {
        var k :| base <= k < |trace| && trace[k].HeldBack() && trace[k].outcome.value.retryAt == earliest.value;
        assert after[k] == trace[k];
      } else {
        assert after[|trace|] == e;
      }
    }
    forall k | base <= k < |after|
      ensures after[k].Visit? && (after[k].Ran() ==>
                (after[k].HeldBack() && sooner.Some? && sooner.value <= after[k].outcome.value.retryAt))
    {
      if k < |trace| { assert after[k] == trace[k]; }
    }
  }

  lemma StaysCooling<S, T>(items: seq<T>, now: S -> int, due: (S, T) -> int, s: S, incomplete: set<T>,
                           start: nat, offset: nat, earliest: Option<int>)
    requires start < |items| && offset < |items|
    requires Cooling(items, now, due, s, incomplete, start, offset, earliest)
    ensures var t := items[Place(start + offset, |items|)];
            t !in incomplete ==> Cooling(items, now, due, s, incomplete, start, offset + 1, earliest)
    ensures var t := items[Place(start + offset, |items|)];
            t in incomplete && now(s) < due(s, t) ==>
            Cooling(items, now, due, s, incomplete, start, offset + 1, Sooner(earliest, due(s, t)))
  {
    OnlyOneMore(start, offset, |items|);
  }

  datatype RoundOutcome = CircuitOpened | Busy | Idle(earliestRetryAt: Option<int>)

  /** One round: every place once from `start`, unless the third strike opens the circuit first. */
  method RunRound<S(!new), T(==, !new)>(
      workItems: seq<T>, runQuantum: (S, T) -> (S, QuantumResult), waitUntil: (S, int) -> S, now: S -> int,
      state: S, history: Trace, unfinished: set<T>, start: nat, failures: nat, failureRounds: nat,
      ghost initial: S, ghost valid: S -> bool, ghost due: (S, T) -> int, ghost storms: S -> nat, ghost work: S -> nat)
    returns (final: S, trace: Trace, incomplete: set<T>, nextStartIndex: nat, consecutiveFailures: nat,
             globalFailureRounds: nat, outcome: RoundOutcome)
    requires valid(state) && failures < 3 && start < |workItems|
    requires Lawful(workItems, runQuantum, waitUntil, now, valid, due, storms, work)
    requires Explained(workItems, runQuantum, waitUntil, now, initial, history, state, unfinished, start, failures, failureRounds)
    ensures valid(final) && consecutiveFailures < 3 && nextStartIndex < |workItems|
    ensures Explained(workItems, runQuantum, waitUntil, now, initial, trace, final, incomplete, nextStartIndex,
                      consecutiveFailures, globalFailureRounds)
    ensures || Below(storms, work, final, state)
            || (storms(final) == storms(state) && work(final) == work(state) && incomplete < unfinished)
            || (outcome.Idle? && final == state && incomplete == unfinished
                  && Cooling(workItems, now, due, state, unfinished, start, |workItems|, outcome.earliestRetryAt))
    ensures outcome.Idle? ==>
              incomplete == unfinished
              && Quiet(workItems, trace, |history|, unfinished, start, |workItems|, outcome.earliestRetryAt)
  {
    hide Explained, Quiet, Cooling, Place, Ahead, CommonCrawlPageRetryDelay;
    var n := |workItems|;
    final, trace, incomplete := state, history, unfinished;
    consecutiveFailures, globalFailureRounds, nextStartIndex := failures, failureRounds, start;
    var requestAttempted, progressMade := false, false;
    var earliestRetryAt: Option<int> := None;
    var offset := 0;
    NothingYet(workItems, now, due, state, history, unfinished, start);

    while offset < n
      invariant offset <= n
      invariant valid(final) && consecutiveFailures < 3
      invariant nextStartIndex == Place(start + offset, n)
      invariant Explained(workItems, runQuantum, waitUntil, now, initial, trace, final, incomplete, nextStartIndex,
                          consecutiveFailures, globalFailureRounds)
      invariant || Below(storms, work, final, state)
                || (storms(final) == storms(state) && work(final) == work(state) && incomplete < unfinished)
                || (!requestAttempted && !progressMade && final == state && incomplete == unfinished
                      && Cooling(workItems, now, due, state, unfinished, start, offset, earliestRetryAt))
      invariant !requestAttempted && !progressMade ==>
                  incomplete == unfinished
                  && Quiet(workItems, trace, |history|, unfinished, start, offset, earliestRetryAt)
      invariant incomplete <= unfinished
    {
      var itemIndex := nextStartIndex;
      var item := workItems[itemIndex];
      ghost var earlier, from := trace, final;
      if !requestAttempted && !progressMade && from == state
         && Cooling(workItems, now, due, state, unfinished, start, offset, earliestRetryAt) {
        StaysCooling(workItems, now, due, state, unfinished, start, offset, earliestRetryAt);
      }
      nextStartIndex := Place(itemIndex + 1, n);
      NextPlace(start + offset, n);
      offset := offset + 1;

      if item !in incomplete {
        trace := trace + [Visit(itemIndex, None)];
        SkipExplained(workItems, runQuantum, waitUntil, now, initial, earlier, from, incomplete, itemIndex,
                      consecutiveFailures, globalFailureRounds);
        if !requestAttempted && !progressMade {
          StaysQuiet(workItems, earlier, |history|, unfinished, start, offset - 1, earliestRetryAt, Visit(itemIndex, None));
        }
        continue;
      }

      assert LawfulQuantum(runQuantum, now, valid, due, storms, work, final, item);
      var (next, result) := runQuantum(final, item);
      trace := trace + [Visit(itemIndex, Some(result))];
      RunExplained(workItems, runQuantum, waitUntil, now, initial, earlier, from, incomplete, itemIndex,
                   consecutiveFailures, globalFailureRounds);
      final := next;

      if result.Complete? {
        incomplete := incomplete - {item};
        progressMade := true;
        consecutiveFailures, globalFailureRounds := 0, 0;
        continue;
      }
      if result.Advanced? {
        requestAttempted := true;
        progressMade := true;
        consecutiveFailures, globalFailureRounds := 0, 0;
        continue;
      }

      if !requestAttempted && !progressMade && !result.attempted {
        StaysQuiet(workItems, earlier, |history|, unfinished, start, offset - 1, earliestRetryAt,
                   Visit(itemIndex, Some(result)));
      }
      if earliestRetryAt.None? || result.retryAt < earliestRetryAt.value {
        earliestRetryAt := Some(result.retryAt);
      }
      if !result.attempted { continue; }

      requestAttempted := true;
      consecutiveFailures := consecutiveFailures + 1;
      if consecutiveFailures < 3 { continue; }

      globalFailureRounds := globalFailureRounds + 1;
      var waitMs := CommonCrawlPageRetryDelay(globalFailureRounds);
      BackoffExplained(workItems, runQuantum, waitUntil, now, initial, trace, final, incomplete, nextStartIndex,
                       globalFailureRounds - 1);
      trace := trace + [Backoff(waitMs)];
      assert LawfulWait(waitUntil, now, valid, due, storms, work, final, now(final) + waitMs);
      final := waitUntil(final, now(final) + waitMs);
      consecutiveFailures := 0;
      outcome := CircuitOpened;
      return;
    }
    outcome := if requestAttempted || progressMade then Busy else Idle(earliestRetryAt);
  }

  lemma SmallerSet<T>(a: set<T>, b: set<T>)
    requires a < b
    ensures |a| < |b|
  {
    assert b == a + (b - a);
  }

  lemma NextPlace(k: nat, n: nat)
    requires n > 0
    ensures Place(Place(k, n) + 1, n) == Place(k + 1, n)
  {
    PlaceSucc(k, n);
  }

  lemma NothingYet<S, T>(items: seq<T>, now: S -> int, due: (S, T) -> int, s: S, trace: Trace, incomplete: set<T>, start: nat)
    requires start < |items|
    ensures Place(start, |items|) == start
    ensures Quiet(items, trace, |trace|, incomplete, start, 0, None)
    ensures Cooling(items, now, due, s, incomplete, start, 0, None)
  {}

  /** Returns only when every item has reported completion. Whatever happened on the way is a
      disciplined, faithful trace from `initial` to the returned state. */
  method RunCooperativeAuditWork<S(!new), T(==, !new)>(
      workItems: seq<T>, initial: S,
      runQuantum: (S, T) -> (S, QuantumResult), waitUntil: (S, int) -> S, now: S -> int,
      ghost valid: S -> bool, ghost due: (S, T) -> int, ghost storms: S -> nat, ghost work: S -> nat)
    returns (final: S, trace: Trace)
    requires valid(initial)
    requires Lawful(workItems, runQuantum, waitUntil, now, valid, due, storms, work)
    ensures valid(final)
    ensures final == Replay(workItems, runQuantum, waitUntil, now, initial, trace)
    ensures Faithful(workItems, runQuantum, waitUntil, now, initial, trace)
    ensures Disciplined(workItems, trace) && Strikes(trace) < 3
    ensures Finished(workItems, trace) == set t | t in workItems
  {
    var incomplete := set t | t in workItems;
    var consecutiveFailures: nat, globalFailureRounds: nat, nextStartIndex: nat := 0, 0, 0;
    final, trace := initial, [];
    if incomplete == {} { return; }
    assert |workItems| > 0;

    while incomplete != {}
      invariant valid(final) && consecutiveFailures < 3 && nextStartIndex < |workItems|
      invariant Explained(workItems, runQuantum, waitUntil, now, initial, trace, final, incomplete, nextStartIndex,
                          consecutiveFailures, globalFailureRounds)
      decreases storms(final), work(final), |incomplete|,
                if SomeDue(now, due, final, incomplete) then 0 else 1
    {
      hide Quiet, Cooling, Place, Ahead, SomeDue, Replay, Faithful;
      var start := nextStartIndex;
      ghost var before, history, waiting := final, trace, incomplete;
      var outcome: RoundOutcome;
      final, trace, incomplete, nextStartIndex, consecutiveFailures, globalFailureRounds, outcome :=
        RunRound(workItems, runQuantum, waitUntil, now, final, trace, incomplete, nextStartIndex, consecutiveFailures,
                 globalFailureRounds, initial, valid, due, storms, work);
      if incomplete < waiting { SmallerSet(incomplete, waiting); }

      if outcome.Idle? {
        QuietHasRetry(workItems, trace, |history|, incomplete, start, outcome.earliestRetryAt);
        if outcome.earliestRetryAt.None? {
          // The program's "incomplete work without a retry time" error cannot be reached.
          assert false;
        }
        var earliest := outcome.earliestRetryAt.value;
        IdleExplained(workItems, runQuantum, waitUntil, now, initial, trace, final, incomplete, nextStartIndex,
                      consecutiveFailures, globalFailureRounds, |history|, start, earliest);
        trace := trace + [IdleWait(earliest)];
        assert LawfulWait(waitUntil, now, valid, due, storms, work, final, earliest);
        if Cooling(workItems, now, due, final, incomplete, start, |workItems|, outcome.earliestRetryAt) {
          WaitMakesDue(workItems, waitUntil, now, due, final, incomplete, start, earliest);
        }
        final := waitUntil(final, earliest);
      }
    }
  }

  /** One more event: what it does to each reading of the trace. */
  lemma Extend<T>(items: seq<T>, t: Trace, e: Event)
    requires Disciplined(items, t) && MayFollow(items, t, e)
    ensures Disciplined(items, t + [e])
    ensures Visits(t + [e]) == Visits(t) + if e.Visit? then 1 else 0
    ensures Strikes(t + [e]) == if e.Succeeded() || e.Backoff? then 0 else Strikes(t) + if e.Struck() then 1 else 0
    ensures Streak(t + [e]) == if e.Succeeded() then 0 else Streak(t) + if e.Backoff? then 1 else 0
    ensures Finished(items, t + [e]) == Finished(items, t) +
                (if e.Ran() && e.outcome.value.Complete? then {items[e.position]} else {})
  {
    assert (t + [e])[..|t|] == t;
    forall k | 0 <= k < |t + [e]| ensures MayFollow(items, (t + [e])[..k], (t + [e])[k]) {
      if k < |t| { assert (t + [e])[..k] == t[..k]; }
    }
  }

  /** An event whose outcome is the callback's own keeps the trace faithful. */
  lemma ExtendExplained<S(!new), T(!new)>(items: seq<T>,
      runQuantum: (S, T) -> (S, QuantumResult), waitUntil: (S, int) -> S, now: S -> int,
      initial: S, t: Trace, state: S, incomplete: set<T>, place: nat, failures: nat, rounds: nat, e: Event)
    requires Explained(items, runQuantum, waitUntil, now, initial, t, state, incomplete, place, failures, rounds)
    requires MayFollow(items, t, e)
    requires e.Ran() ==> e.outcome.value == runQuantum(state, items[e.position]).1
    ensures Explained(items, runQuantum, waitUntil, now, initial, t + [e],
                After(items, runQuantum, waitUntil, now, state, e),
                if e.Ran() && e.outcome.value.Complete? then incomplete - {items[e.position]} else incomplete,
                if e.Visit? then Place(place + 1, |items|) else place,
                if e.Succeeded() || e.Backoff? then 0 else failures + if e.Struck() then 1 else 0,
                if e.Succeeded() then 0 else rounds + if e.Backoff? then 1 else 0)
  {
    Extend(items, t, e);
    assert (t + [e])[..|t|] == t;
    PlaceSucc(Visits(t), |items|);
  }

  lemma SkipExplained<S(!new), T(!new)>(items: seq<T>,
      runQuantum: (S, T) -> (S, QuantumResult), waitUntil: (S, int) -> S, now: S -> int,
      initial: S, t: Trace, state: S, incomplete: set<T>, place: nat, failures: nat, rounds: nat)
    requires place < |items| && items[place] !in incomplete && failures < 3
    requires Explained(items, runQuantum, waitUntil, now, initial, t, state, incomplete, place, failures, rounds)
    ensures Explained(items, runQuantum, waitUntil, now, initial, t + [Visit(place, None)], state, incomplete,
                      Place(place + 1, |items|), failures, rounds)
  {
    ExtendExplained(items, runQuantum, waitUntil, now, initial, t, state, incomplete, place, failures, rounds,
                    Visit(place, None));
  }

  lemma RunExplained<S(!new), T(!new)>(items: seq<T>,
      runQuantum: (S, T) -> (S, QuantumResult), waitUntil: (S, int) -> S, now: S -> int,
      initial: S, t: Trace, state: S, incomplete: set<T>, place: nat, failures: nat, rounds: nat)
    requires place < |items| && items[place] in incomplete && failures < 3
    requires Explained(items, runQuantum, waitUntil, now, initial, t, state, incomplete, place, failures, rounds)
    ensures
      var (next, r) := runQuantum(state, items[place]);
      Explained(items, runQuantum, waitUntil, now, initial, t + [Visit(place, Some(r))], next,
                if r.Complete? then incomplete - {items[place]} else incomplete,
                Place(place + 1, |items|),
                if !r.Deferred? then 0 else failures + if r.attempted then 1 else 0,
                if !r.Deferred? then 0 else rounds)
  {
    ExtendExplained(items, runQuantum, waitUntil, now, initial, t, state, incomplete, place, failures, rounds,
                    Visit(place, Some(runQuantum(state, items[place]).1)));
  }

  lemma BackoffExplained<S(!new), T(!new)>(items: seq<T>,
      runQuantum: (S, T) -> (S, QuantumResult), waitUntil: (S, int) -> S, now: S -> int,
      initial: S, t: Trace, state: S, incomplete: set<T>, place: nat, rounds: nat)
    requires Explained(items, runQuantum, waitUntil, now, initial, t, state, incomplete, place, 3, rounds)
    ensures
      var ms := CommonCrawlPageRetryDelay(rounds + 1);
      Explained(items, runQuantum, waitUntil, now, initial, t + [Backoff(ms)], waitUntil(state, now(state) + ms),
                incomplete, place, 0, rounds + 1)
  {
    hide Replay, Faithful, CommonCrawlPageRetryDelay, Place;
    ExtendExplained(items, runQuantum, waitUntil, now, initial, t, state, incomplete, place, 3, rounds,
                    Backoff(CommonCrawlPageRetryDelay(rounds + 1)));
  }

  lemma IdleExplained<S(!new), T(!new)>(items: seq<T>,
      runQuantum: (S, T) -> (S, QuantumResult), waitUntil: (S, int) -> S, now: S -> int,
      initial: S, t: Trace, state: S, incomplete: set<T>, place: nat, failures: nat, rounds: nat,
      base: nat, start: nat, until: int)
    requires failures < 3 && start < |items|
    requires Explained(items, runQuantum, waitUntil, now, initial, t, state, incomplete, place, failures, rounds)
    requires Quiet(items, t, base, incomplete, start, |items|, Some(until))
    ensures Explained(items, runQuantum, waitUntil, now, initial, t + [IdleWait(until)], waitUntil(state, until),
                      incomplete, place, failures, rounds)
  {
    ExtendExplained(items, runQuantum, waitUntil, now, initial, t, state, incomplete, place, failures, rounds,
                    IdleWait(until));
  }

  /** A quiet full round with something incomplete has a retry time. */
  lemma QuietHasRetry<T>(items: seq<T>, trace: Trace, base: nat, incomplete: set<T>, start: nat, earliest: Option<int>)
    requires start < |items| && incomplete != {} && incomplete <= set t | t in items
    requires Quiet(items, trace, base, incomplete, start, |items|, earliest)
    ensures earliest.Some?
  {
    var t :| t in incomplete;
    var p :| 0 <= p < |items| && items[p] == t;
    assert Ahead(start, p, |items|) < |items|;
  }

  /** After waiting for the least retry time of a round in which all items were cooling, some item is due. */
  lemma WaitMakesDue<S(!new), T(!new)>(items: seq<T>, waitUntil: (S, int) -> S, now: S -> int, due: (S, T) -> int,
      s: S, incomplete: set<T>, start: nat, until: int)
    requires start < |items| && incomplete <= set t | t in items
    requires Cooling(items, now, due, s, incomplete, start, |items|, Some(until))
    ensures !SomeDue(now, due, s, incomplete)
    ensures until <= now(waitUntil(s, until)) && (forall t :: due(waitUntil(s, until), t) == due(s, t)) ==>
              SomeDue(now, due, waitUntil(s, until), incomplete)
  {
    forall t | t in incomplete ensures now(s) < due(s, t) {
      var p :| 0 <= p < |items| && items[p] == t;
      assert Ahead(start, p, |items|) < |items|;
    }
  }
}

/** What a disciplined trace guarantees to the patterns and to the servers. */
module SchedulerFairness {
  import opened Basics
  import opened RetryPolicy
  import opened CyclicArithmetic
  import opened CooperativeScheduler

  // ----- readings of a prefix and of the trace after it -----

  lemma {:induction false} VisitsGrow(t: Trace, i: nat, j: nat)
    requires i <= j <= |t|
    ensures Visits(t[..i]) <= Visits(t[..j])
    ensures i < j && t[i].Visit? ==> Visits(t[..i]) < Visits(t[..j])
    decreases j
  {
    if i < j {
      assert t[..j][..|t[..j]|-1] == t[..j-1];
      VisitsGrow(t, i, j - 1);
    }
  }

  lemma {:induction false} FinishedGrows<T>(items: seq<T>, t: Trace, i: nat, j: nat)
    requires i <= j <= |t|
    ensures Finished(items, t[..i]) <= Finished(items, t[..j])
    decreases j
  {
    if i < j {
      assert t[..j][..|t[..j]|-1] == t[..j-1];
      FinishedGrows(items, t, i, j - 1);
    }
  }

  /** Every visit number between two prefixes is the number of some event between them. */
  lemma {:induction false} NthVisit(t: Trace, i: nat, j: nat, v: nat) returns (k: nat)
    requires i <= j <= |t| && Visits(t[..i]) <= v < Visits(t[..j])
    ensures i <= k < j && t[k].Visit? && Visits(t[..k]) == v
    decreases j
  {
    assert i < j;
    assert t[..j][..|t[..j]|-1] == t[..j-1];
    if v < Visits(t[..j-1]) { k := NthVisit(t, i, j - 1, v); } else { k := j - 1; }
  }

  // ----- fairness -----

  lemma VisitsFollowRing<T>(items: seq<T>, t: Trace, k: nat)
    requires Disciplined(items, t) && k < |t| && t[k].Visit?
    ensures |items| > 0 && t[k].position == Place(Visits(t[..k]), |items|)
    ensures t[k].Ran() <==> items[t[k].position] !in Finished(items, t[..k])
  {
    assert MayFollow(items, t[..k], t[k]);
  }

  /** Across full rounds, idle waits and open circuits the walk is one plain cyclic walk: visit number v is of
      place v mod n, and a place is skipped exactly when its item already reported completion. */
  lemma WalkIsCyclic<T>(items: seq<T>, t: Trace, k: nat)
    requires Disciplined(items, t) && k < |t| && t[k].Visit?
    ensures |items| > 0 && t[k].position == Visits(t[..k]) % |items|
    ensures t[k].Ran() <==> items[t[k].position] !in Finished(items, t[..k])
  {
    VisitsFollowRing(items, t, k);
    PlaceIsRemainder(Visits(t[..k]), |items|);
  }

  /** Nothing is run once it is complete, and nothing at all is run once everything is. */
  lemma CompleteItemsRest<T>(items: seq<T>, t: Trace, i: nat, k: nat)
    requires Disciplined(items, t) && i <= k < |t| && t[k].Ran()
    ensures t[k].position < |items| && items[t[k].position] !in Finished(items, t[..i])
  {
    VisitsFollowRing(items, t, k);
    FinishedGrows(items, t, i, k);
  }

  lemma NotSoonerThanATurn<T>(items: seq<T>, t: Trace, i: nat, j: nat)
    requires Disciplined(items, t) && i < j < |t| && t[i].Ran() && t[j].Ran() && t[i].position == t[j].position
    ensures |items| > 0 && Visits(t[..j]) >= Visits(t[..i]) + |items|
  {
    hide Place, Visits, Finished, MayFollow, Disciplined;
    VisitsGrow(t, i, j);
    VisitsFollowRing(items, t, i);
    VisitsFollowRing(items, t, j);
    if Visits(t[..j]) < Visits(t[..i]) + |items| { SamePlace(Visits(t[..i]), Visits(t[..j]), |items|); }
  }

  /** A visit one turn later would be of the same item, and when that is not complete, it runs. */
  lemma RunsATurnLater<T>(items: seq<T>, t: Trace, i: nat, j: nat) returns (k: nat)
    requires Disciplined(items, t) && i < j < |t| && t[i].Ran() && t[j].Ran() && t[i].position == t[j].position
    requires Visits(t[..i]) + |items| < Visits(t[..j])
    ensures i < k < j && t[k].Ran() && t[k].position == t[i].position
  {
    hide Place, Visits, Finished, MayFollow, Disciplined;
    VisitsFollowRing(items, t, i);
    VisitsFollowRing(items, t, j);
    k := NthVisit(t, i, j, Visits(t[..i]) + |items|);
    VisitsFollowRing(items, t, k);
    PlaceOfTurn(Visits(t[..i]), |items|);
    FinishedGrows(items, t, k, j);
  }

  /** Between two consecutive quanta of one item, the walk passes exactly one full turn. */
  lemma TurnBetweenQuanta<T>(items: seq<T>, t: Trace, i: nat, j: nat)
    requires Disciplined(items, t) && i < j < |t|
    requires t[i].Ran() && t[j].Ran() && t[i].position == t[j].position
    requires forall k :: i < k < j && t[k].Ran() ==> t[k].position != t[i].position
    ensures Visits(t[..j]) == Visits(t[..i]) + |items|
  {
    hide Visits, Disciplined;
    NotSoonerThanATurn(items, t, i, j);
    if Visits(t[..i]) + |items| < Visits(t[..j]) {
      var k := RunsATurnLater(items, t, i, j);
    }
  }

  /** So between two consecutive quanta of an item every other item that is still incomplete gets a turn ... */
  lemma EveryOtherItemGetsATurn<T>(items: seq<T>, t: Trace, i: nat, j: nat, q: nat) returns (k: nat)
    requires Disciplined(items, t) && i < j < |t|
    requires t[i].Ran() && t[j].Ran() && t[i].position == t[j].position
    requires forall k :: i < k < j && t[k].Ran() ==> t[k].position != t[i].position
    requires q < |items| && q != t[i].position && items[q] !in Finished(items, t[..j])
    ensures i < k < j && t[k].Ran() && t[k].position == q
  {
    var n, vi := |items|, Visits(t[..i]);
    TurnBetweenQuanta(items, t, i, j);
    VisitsFollowRing(items, t, i);
    hide Visits, MayFollow, Finished, Place, Ahead;
    var d := Ahead(vi, q, n);
    assert d != 0 by { assert Place(vi + 0, n) == t[i].position; }
    k := NthVisit(t, i, j, vi + d);
    VisitsFollowRing(items, t, k);
    FinishedGrows(items, t, k, j);
  }

  /** ... and only one: failing items cannot monopolise the retries. */
  lemma NoItemGetsTwoTurns<T>(items: seq<T>, t: Trace, i: nat, j: nat, k: nat, l: nat)
    requires Disciplined(items, t) && i < k < l < j < |t|
    requires t[i].Ran() && t[j].Ran() && t[i].position == t[j].position
    requires forall k :: i < k < j && t[k].Ran() ==> t[k].position != t[i].position
    requires t[k].Ran() && t[l].Ran()
    ensures t[k].position != t[l].position
  {
    TurnBetweenQuanta(items, t, i, j);
    AtMostOncePerTurn(items, t, i, j, k, l);
  }

  lemma AtMostOncePerTurn<T>(items: seq<T>, t: Trace, i: nat, j: nat, k: nat, l: nat)
    requires Disciplined(items, t) && i < k < l < j < |t| && t[i].Visit?
    requires Visits(t[..j]) == Visits(t[..i]) + |items|
    requires t[k].Visit? && t[l].Visit?
    ensures t[k].position != t[l].position
  {
    VisitsGrow(t, i, k);
    VisitsGrow(t, k, l);
    VisitsGrow(t, l, j);
    assert MayFollow(items, t[..k], t[k]) && MayFollow(items, t[..l], t[l]);
    if t[k].position == t[l].position { SamePlace(Visits(t[..k]), Visits(t[..l]), |items|); }
  }

  // ----- the circuit breaker -----

  /** Failed requests among the events from `i` up to `j`. */
  function Failures(t: Trace, i: nat, j: nat): nat
    requires i <= j <= |t|
    decreases j
  {
    if i == j then 0 else Failures(t, i, j - 1) + if t[j-1].Struck() then 1 else 0
  }

  lemma {:induction false} StrikesCountFailures(t: Trace, i: nat, j: nat)
    requires i <= j <= |t|
    requires forall k :: i <= k < j ==> !t[k].Succeeded() && !t[k].Backoff?
    ensures Strikes(t[..j]) == Strikes(t[..i]) + Failures(t, i, j)
    decreases j
  {
    if i < j {
      StrikesCountFailures(t, i, j - 1);
      assert t[..j][..|t[..j]|-1] == t[..j-1];
      assert t[..j][|t[..j]|-1] == t[j-1];
    }
  }

  /** In any stretch without a success or a global backoff at most three requests fail, and when three
      have failed the very next event is the backoff: no quantum, and no idle wait, comes first. */
  lemma ThreeStrikesOpenTheCircuit<T>(items: seq<T>, t: Trace, i: nat, j: nat)
    requires Disciplined(items, t) && Strikes(t) < 3 && i <= j <= |t|
    requires forall k :: i <= k < j ==> !t[k].Succeeded() && !t[k].Backoff?
    ensures Failures(t, i, j) <= 3
    ensures Failures(t, i, j) == 3 ==> j < |t| && t[j].Backoff?
  {
    StrikesCountFailures(t, i, j);
    if j == |t| {
      assert t[..j] == t;
    } else {
      assert MayFollow(items, t[..j], t[j]);
    }
  }

  lemma {:induction false} StreakGrowsWithoutSuccess(t: Trace, i: nat, j: nat)
    requires i < j <= |t| && t[i].Backoff?
    requires forall k :: i < k < j ==> !t[k].Succeeded()
    ensures Streak(t[..i]) < Streak(t[..j])
    decreases j
  {
    assert t[..j][..|t[..j]|-1] == t[..j-1];
    assert t[..j][|t[..j]|-1] == t[j-1];
    if i < j - 1 { StreakGrowsWithoutSuccess(t, i, j - 1); }
  }

  /** A circuit opens only after three strikes; a later one without a success in between never waits less,
      and none waits more than fifteen minutes. The first after a success waits one minute. */
  lemma BackoffsEscalate<T>(items: seq<T>, t: Trace, i: nat, j: nat)
    requires Disciplined(items, t) && i < j < |t| && t[i].Backoff? && t[j].Backoff?
    requires forall k :: i < k < j ==> !t[k].Succeeded()
    ensures Strikes(t[..i]) == 3 == Strikes(t[..j])
    ensures MINUTE_MS <= t[i].milliseconds <= t[j].milliseconds <= MAX_DELAY_MS
    ensures Streak(t[..i]) == 0 ==> t[i].milliseconds == MINUTE_MS
    ensures (forall k :: i < k < j ==> !t[k].Backoff?) ==> t[j].milliseconds == Capped(2 * t[i].milliseconds)
  {
    assert MayFollow(items, t[..i], t[i]) && MayFollow(items, t[..j], t[j]);
    StreakGrowsWithoutSuccess(t, i, j);
    DelayIsBoundedAndMonotone(Streak(t[..i]) + 1, Streak(t[..j]) + 1);
    assert CommonCrawlPageRetryDelay(1) == MINUTE_MS;
    if forall k :: i < k < j ==> !t[k].Backoff? {
      assert t[..i+1][..|t[..i+1]|-1] == t[..i] && t[..i+1][|t[..i+1]|-1] == t[i];
      StreakCountsBackoffs(t, i + 1, j);
      NoBackoffs(t, i + 1, j);
      DelayDoubles(Streak(t[..i]) + 1);
    }
  }

  /** Global backoffs among the events from `i` up to `j`. */
  function Backoffs(t: Trace, i: nat, j: nat): nat
    requires i <= j <= |t|
    decreases j
  {
    if i == j then 0 else Backoffs(t, i, j - 1) + if t[j-1].Backoff? then 1 else 0
  }

  lemma {:induction false} NoBackoffs(t: Trace, i: nat, j: nat)
    requires i <= j <= |t| && forall k :: i <= k < j ==> !t[k].Backoff?
    ensures Backoffs(t, i, j) == 0
    decreases j
  {
    if i < j { NoBackoffs(t, i, j - 1); }
  }

  lemma {:induction false} StreakCountsBackoffs(t: Trace, i: nat, j: nat)
    requires i <= j <= |t| && forall k :: i <= k < j ==> !t[k].Succeeded()
    ensures Streak(t[..j]) == Streak(t[..i]) + Backoffs(t, i, j)
    decreases j
  {
    if i < j {
      StreakCountsBackoffs(t, i, j - 1);
      assert t[..j][..|t[..j]|-1] == t[..j-1];
      assert t[..j][|t[..j]|-1] == t[j-1];
    }
  }

  /** A backoff that follows `k` others since the last success waits two to the `k` minutes, and at most fifteen. */
  lemma BackoffWaits<T>(items: seq<T>, t: Trace, i: nat, j: nat)
    requires Disciplined(items, t) && i <= j < |t| && t[j].Backoff?
    requires (i == 0 || t[i-1].Succeeded()) && forall k :: i <= k < j ==> !t[k].Succeeded()
    ensures t[j].milliseconds == Capped(60_000 * Pow2(Backoffs(t, i, j)))
  {
    assert MayFollow(items, t[..j], t[j]);
    if i > 0 { assert t[..i][|t[..i]|-1] == t[i-1]; }
    StreakCountsBackoffs(t, i, j);
    DelayIsPower(Backoffs(t, i, j));
  }

  /** An idle wait follows a full round in which nothing could be contacted, and it lasts exactly until the
      earliest retry time that round reported. */
  lemma IdleWaitsAreMinimal<T>(items: seq<T>, t: Trace, k: nat)
    requires Disciplined(items, t) && k < |t| && t[k].IdleWait?
    ensures |items| <= k
    ensures forall r :: k - |items| <= r < k ==>
              t[r].Visit? && (t[r].Ran() ==> t[r].HeldBack() && t[k].until <= t[r].outcome.value.retryAt)
    ensures exists r :: k - |items| <= r < k && t[r].HeldBack() && t[r].outcome.value.retryAt == t[k].until
  {
    assert MayFollow(items, t[..k], t[k]);
    assert forall r :: 0 <= r < k ==> t[..k][r] == t[r];
  }

  // ----- waits take their time -----

  /** When the callback does wait, a global backoff lets at least its milliseconds pass, and an idle wait ends no earlier
      than the retry time it waits for. */
  lemma WaitsTakeTheirTime<S, T>(items: seq<T>, runQuantum: (S, T) -> (S, QuantumResult), waitUntil: (S, int) -> S,
                                 now: S -> int, initial: S, t: Trace, k: nat)
    requires k < |t| && (t[k].Backoff? || t[k].IdleWait?)
    requires forall until :: now(waitUntil(Replay(items, runQuantum, waitUntil, now, initial, t[..k]), until)) >= until
    ensures var before, after := now(Replay(items, runQuantum, waitUntil, now, initial, t[..k])),
                                 now(Replay(items, runQuantum, waitUntil, now, initial, t[..k+1]));
      if t[k].Backoff? then after >= before + t[k].milliseconds else after >= t[k].until
  {
    var upTo := t[..k+1];
    assert upTo[..|upTo|-1] == t[..k] && upTo[|upTo|-1] == t[k];
    var s := Replay(items, runQuantum, waitUntil, now, initial, t[..k]);
    var until := if t[k].Backoff? then now(s) + t[k].milliseconds else t[k].until;
    assert After(items, runQuantum, waitUntil, now, s, t[k]) == waitUntil(s, until);
    assert now(waitUntil(s, until)) >= until;
  }

  // ----- what finishing means for the state -----

  /** A quantum that completes its item makes it done, and nothing the scheduler does undoes that. */
  ghost predicate CompletionSticks<S(!new), T(!new)>(items: seq<T>, runQuantum: (S, T) -> (S, QuantumResult),
      waitUntil: (S, int) -> S, valid: S -> bool, done: (S, T) -> bool)
  {
    && (forall s, t :: valid(s) && t in items ==>
          var (next, r) := runQuantum(s, t);
          && valid(next) && (r.Complete? ==> done(next, t))
          && forall u :: u in items && done(s, u) ==> done(next, u))
    && (forall s, until :: valid(s) ==>
          valid(waitUntil(s, until)) && forall u :: u in items && done(s, u) ==> done(waitUntil(s, until), u))
  }

  /** In the state a trace leads to, every item that reported completion on the way is done. */
  lemma {:induction false} FinishedAreDone<S(!new), T(!new)>(items: seq<T>, runQuantum: (S, T) -> (S, QuantumResult),
      waitUntil: (S, int) -> S, now: S -> int, valid: S -> bool, done: (S, T) -> bool, initial: S, t: Trace)
    requires CompletionSticks(items, runQuantum, waitUntil, valid, done) && valid(initial)
    requires Disciplined(items, t) && Faithful(items, runQuantum, waitUntil, now, initial, t)
    ensures valid(Replay(items, runQuantum, waitUntil, now, initial, t))
    ensures Finished(items, t) <= set u | u in items
    ensures forall u :: u in Finished(items, t) ==> done(Replay(items, runQuantum, waitUntil, now, initial, t), u)
    decreases |t|
  {
    if t != [] {
      var before, e := t[..|t|-1], t[|t|-1];
      forall k | 0 <= k < |before| ensures MayFollow(items, before[..k], before[k]) {
        assert before[..k] == t[..k];
      }
      FinishedAreDone(items, runQuantum, waitUntil, now, valid, done, initial, before);
      assert MayFollow(items, t[..|t|-1], e);
      hide Place, Visits, Strikes, Streak, QuietRound, CommonCrawlPageRetryDelay;
    }
  }
}

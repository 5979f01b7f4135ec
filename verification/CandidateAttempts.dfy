/**
 * The bound on transient attempts: when it holds, when it does not, and why one process under the discovery lock
 * keeps it.
 */
module CandidateAttempts {
  import opened Basics
  import opened CandidateLifecycle
  import M = AuditModel

  type Candidate = M.Candidate
  type Status = M.Status

  /** The tasks at work on a candidate. */
  function Busy(s: Store, c: Candidate): set<nat> {
    set k: nat | k < |s.tasks| && s.tasks[k].candidate == c
  }

  /** No candidate ever has more than `m` tasks at work on it. */
  ghost predicate AtMostTasksPer(s: Store, moves: seq<Move>, m: nat)
    requires CanRun(s, moves)
    decreases |moves|
  {
    moves != [] ==>
      && (moves[0].Pick? ==> |Busy(s, moves[0].candidate)| < m)
      && AtMostTasksPer(Apply(s, moves[0]), moves[1..], m)
  }

  /** One task per candidate, working on an open row from the attempts that row has. */
  ghost predicate TasksCurrent(s: Store) {
    && (forall i, j :: 0 <= i < j < |s.tasks| ==> s.tasks[i].candidate != s.tasks[j].candidate)
    && (forall t :: t in s.tasks ==>
          && t.candidate in s.rows && s.rows[t.candidate].status.Open() && s.rows[t.candidate].attempts == t.attempts
          && (t.verdict.Some? ==> !t.verdict.value.Open() && !t.verdict.value.Unresolved?))
  }

  /** An open row has recorded as many transient outcomes as it says, an unresolved one all six. */
  ghost predicate OutcomesCounted(s: Store) {
    && (forall c :: c in s.rows ==>
          && s.rows[c].attempts < MAX_TRANSIENT_ATTEMPTS
          && Recorded(s, c) == if s.rows[c].status.Unresolved? then MAX_TRANSIENT_ATTEMPTS else s.rows[c].attempts)
    && (forall c :: c in s.recorded ==> c in s.rows)
  }

  ghost predicate AttemptsCounted(s: Store) {
    TasksCurrent(s) && OutcomesCounted(s)
  }

  lemma DismissedTasks(s: Store, k: nat)
    requires TasksCurrent(s) && k < |s.tasks|
    ensures TasksCurrent(Dismissed(s, k))
    ensures forall t :: t in Dismissed(s, k).tasks ==> t.candidate != s.tasks[k].candidate
  {}

  /** A row no task works on may change. */
  lemma FreeRowChanges(s: Store, next: Store, c: Candidate)
    requires TasksCurrent(s) && next.tasks == s.tasks && forall t :: t in s.tasks ==> t.candidate != c
    requires forall d :: d != c && d in s.rows ==> d in next.rows && next.rows[d] == s.rows[d]
    ensures TasksCurrent(next)
  {}

  lemma PickKeepsTasksCurrent(s: Store, c: Candidate)
    requires TasksCurrent(s) && c in s.rows && s.rows[c].status.Open() && forall t :: t in s.tasks ==> t.candidate != c
    ensures TasksCurrent(s.(tasks := s.tasks + [Task(c, s.rows[c].attempts, None)]))
  {}

  lemma DecisionKeepsTasksCurrent(s: Store, k: nat, verdict: Status)
    requires TasksCurrent(s) && k < |s.tasks| && HasCounterOrWaits(verdict)
    ensures TasksCurrent(Decided(s, k, verdict))
  {
    assert s.tasks[k] in s.tasks;
  }

  lemma RowsUntouched(s: Store, next: Store)
    requires TasksCurrent(s) && next.tasks == s.tasks && forall c :: c in s.rows ==> c in next.rows && next.rows[c] == s.rows[c]
    ensures TasksCurrent(next)
  {}

  lemma MoveKeepsTasksCurrent(s: Store, m: Move)
    requires TasksCurrent(s) && Enabled(s, m)
    requires m.Pick? ==> forall t :: t in s.tasks ==> t.candidate != m.candidate
    ensures TasksCurrent(Apply(s, m))
  {
    if m.WriteOutcome? || m.MarkTransient? {
      DismissedTasks(s, m.task);
      var c := s.tasks[m.task].candidate;
      assert Apply(s, m).tasks == Dismissed(s, m.task).tasks;
      assert forall d :: d != c && d in s.rows ==> d in Apply(s, m).rows && Apply(s, m).rows[d] == s.rows[d];
      hide TasksCurrent, Apply;
      FreeRowChanges(Dismissed(s, m.task), Apply(s, m), c);
    } else if m.LoseTasks? {
      assert Apply(s, m).tasks == [];
    } else {
      hide TasksCurrent;
      match m
      case Pick(c, _) => PickKeepsTasksCurrent(s, c);
      case FindExisting(k) => DecisionKeepsTasksCurrent(s, k, BoardStatus(s.boards[s.tasks[k].candidate]));
      case Catalogue(k) => DecisionKeepsTasksCurrent(s, k, M.DiscoveredWaiting);
      case RecordBoard(k, success) =>
        var verdict := Apply(s, m).tasks[k].verdict.value;
        DecisionKeepsTasksCurrent(s, k, verdict);
        RowsUntouched(Decided(s, k, verdict), Apply(s, m));
      case Queue(_) => RowsUntouched(s, Apply(s, m));
      case BoardChanges(_, _) => RowsUntouched(s, Apply(s, m));
    }
  }

  lemma SameOutcomes(s: Store, next: Store)
    requires OutcomesCounted(s) && next.rows == s.rows && next.recorded == s.recorded
    ensures OutcomesCounted(next)
  {}

  lemma QueuedCounted(s: Store, c: Candidate)
    requires OutcomesCounted(s) && c !in s.rows
    ensures OutcomesCounted(s.(rows := s.rows[c := Row(M.Pending, 0, 0)]))
  {}

  lemma MoveKeepsOutcomes(s: Store, m: Move)
    requires TasksCurrent(s) && OutcomesCounted(s) && Enabled(s, m)
    ensures OutcomesCounted(Apply(s, m))
  {
    if m.WriteOutcome? || m.MarkTransient? {
      var t := s.tasks[m.task];
      assert t in s.tasks;
      hide TasksCurrent, OutcomesCounted, Classified, TriedAgainLater;
      SameOutcomes(s, Dismissed(s, m.task));
      if m.WriteOutcome? {
        ClassifiedCounted(Dismissed(s, m.task), t.candidate, t.verdict.value);
      } else {
        TriedAgainCounted(Dismissed(s, m.task), t.candidate, m.now);
      }
    } else {
      hide TasksCurrent, OutcomesCounted;
      if m.Queue? { QueuedCounted(s, m.candidate); } else { SameOutcomes(s, Apply(s, m)); }
    }
  }

  lemma ClassifiedCounted(s: Store, c: Candidate, status: Status)
    requires OutcomesCounted(s) && !status.Unresolved?
    ensures OutcomesCounted(Classified(s, c, status))
  {}

  lemma TriedAgainCounted(s: Store, c: Candidate, now: int)
    requires OutcomesCounted(s) && c in s.rows && s.rows[c].status.Open()
    ensures OutcomesCounted(TriedAgainLater(Noted(s, c), c, s.rows[c].attempts + 1, now))
  {}

  lemma FreeOfTasks(s: Store, c: Candidate)
    requires Busy(s, c) == {}
    ensures forall t :: t in s.tasks ==> t.candidate != c
  {
    forall t | t in s.tasks ensures t.candidate != c {
      var k: nat :| k < |s.tasks| && s.tasks[k] == t;
      assert k !in Busy(s, c);
    }
  }

  lemma MoveKeepsAttempts(s: Store, m: Move)
    requires AttemptsCounted(s) && Enabled(s, m)
    requires m.Pick? ==> Busy(s, m.candidate) == {}
    ensures AttemptsCounted(Apply(s, m))
  {
    if m.Pick? { FreeOfTasks(s, m.candidate); }
    hide TasksCurrent, OutcomesCounted, Apply, Enabled;
    MoveKeepsTasksCurrent(s, m);
    MoveKeepsOutcomes(s, m);
  }

  lemma {:induction false} RunKeepsAttempts(s: Store, moves: seq<Move>)
    requires AttemptsCounted(s) && CanRun(s, moves) && AtMostTasksPer(s, moves, 1)
    ensures AttemptsCounted(After(s, moves))
    decreases |moves|
  {
    if moves != [] {
      MoveKeepsAttempts(s, moves[0]);
      hide AttemptsCounted, Apply, Enabled, Busy;
      RunKeepsAttempts(Apply(s, moves[0]), moves[1..]);
    }
  }

  /** With one task per candidate at a time, crashes included: at most six transient outcomes are ever recorded for a
      candidate, it is unresolved only after all six, and until then its row counts them exactly. */
  lemma SixTransientOutcomesAtMost(moves: seq<Move>, c: Candidate)
    requires CanRun(EMPTY, moves) && AtMostTasksPer(EMPTY, moves, 1)
    ensures var s := After(EMPTY, moves);
      && Recorded(s, c) <= 6
      && (c in s.rows && s.rows[c].status.Unresolved? ==> Recorded(s, c) == 6)
      && (c in s.rows && s.rows[c].status.Open() ==> Recorded(s, c) == s.rows[c].attempts < 6)
  {
    RunKeepsAttempts(EMPTY, moves);
  }

  lemma {:induction false} RunConcat(s: Store, a: seq<Move>, b: seq<Move>)
    requires CanRun(s, a) && CanRun(After(s, a), b)
    ensures CanRun(s, a + b) && After(s, a + b) == After(After(s, a), b)
    decreases |a|
  {
    hide Enabled, Apply;
    if a == [] {
      assert a + b == b;
    } else {
      RunConcat(Apply(s, a[0]), a[1..], b);
      assert (a + b)[1..] == a[1..] + b;
    }
  }

  lemma RunOne(s: Store, m: Move)
    requires Enabled(s, m)
    ensures CanRun(s, [m]) && After(s, [m]) == Apply(s, m)
  {
    hide Enabled, Apply;
    assert [m][1..] == [];
    assert CanRun(Apply(s, m), []) && After(Apply(s, m), []) == Apply(s, m);
  }

  lemma {:induction false} MoreTasksAreAllowed(s: Store, moves: seq<Move>, m: nat, n: nat)
    requires CanRun(s, moves) && AtMostTasksPer(s, moves, m) && m <= n
    ensures AtMostTasksPer(s, moves, n)
    decreases |moves|
  {
    hide Apply, Enabled, Busy;
    if moves != [] { MoreTasksAreAllowed(Apply(s, moves[0]), moves[1..], m, n); }
  }

  lemma {:induction false} OverlapConcat(s: Store, a: seq<Move>, b: seq<Move>, m: nat)
    requires CanRun(s, a) && CanRun(After(s, a), b) && AtMostTasksPer(s, a, m) && AtMostTasksPer(After(s, a), b, m)
    ensures CanRun(s, a + b) && AtMostTasksPer(s, a + b, m)
    decreases |a|
  {
    RunConcat(s, a, b);
    hide Enabled, Apply, Busy;
    if a == [] {
      assert a + b == b;
    } else {
      OverlapConcat(Apply(s, a[0]), a[1..], b, m);
      assert (a + b)[1..] == a[1..] + b;
    }
  }

  lemma {:induction false} WithoutPicks(s: Store, moves: seq<Move>, m: nat)
    requires CanRun(s, moves) && forall x :: x in moves ==> !x.Pick?
    ensures AtMostTasksPer(s, moves, m)
    decreases |moves|
  {
    hide Apply, Enabled, Busy;
    if moves != [] {
      assert moves[0] in moves;
      WithoutPicks(Apply(s, moves[0]), moves[1..], m);
    }
  }

  lemma {:induction false} NoMoreBusyThanTasks(tasks: seq<Task>, n: nat, c: Candidate)
    requires n <= |tasks|
    ensures |set k: nat | k < n && tasks[k].candidate == c| <= n
  {
    if n > 0 {
      NoMoreBusyThanTasks(tasks, n - 1, c);
      var front := set k: nat | k < n - 1 && tasks[k].candidate == c;
      assert (set k: nat | k < n && tasks[k].candidate == c) == if tasks[n-1].candidate == c then front + {n - 1} else front;
    }
  }

  /** `n` tasks that all read the candidate before any of them reported. */
  ghost predicate PickedBy(s: Store, c: Candidate, n: nat) {
    && c in s.rows && s.rows[c].status.Open() && s.rows[c].nextAttemptAt <= 0 && s.rows[c].attempts == 0
    && Recorded(s, c) == 0 && |s.tasks| == n && forall t :: t in s.tasks ==> t == Task(c, 0, None)
  }

  lemma {:induction false} PickManyTimes(c: Candidate, n: nat) returns (moves: seq<Move>)
    ensures CanRun(EMPTY, moves) && AtMostTasksPer(EMPTY, moves, n) && PickedBy(After(EMPTY, moves), c, n)
  {
    if n == 0 {
      moves := [Queue(c)];
      RunOne(EMPTY, Queue(c));
      WithoutPicks(EMPTY, moves, 0);
    } else {
      var before := PickManyTimes(c, n - 1);
      var s := After(EMPTY, before);
      RunOne(s, Pick(c, 0));
      NoMoreBusyThanTasks(s.tasks, n - 1, c);
      MoreTasksAreAllowed(EMPTY, before, n - 1, n);
      RunConcat(EMPTY, before, [Pick(c, 0)]);
      OverlapConcat(EMPTY, before, [Pick(c, 0)], n);
      moves := before + [Pick(c, 0)];
    }
  }

  lemma ReportOnce(s: Store, c: Candidate) returns (next: Store)
    requires c in s.rows && s.rows[c].status.Open() && |s.tasks| > 0 && forall t :: t in s.tasks ==> t == Task(c, 0, None)
    ensures Enabled(s, MarkTransient(0, 0)) && next == Apply(s, MarkTransient(0, 0)) && next.tasks == s.tasks[1..]
    ensures c in next.rows && next.rows[c].status.Open() && next.rows[c].attempts == 1
    ensures Recorded(next, c) == Recorded(s, c) + 1
  {
    assert s.tasks[0] in s.tasks;
    next := Apply(s, MarkTransient(0, 0));
    assert s.tasks[..0] + s.tasks[1..] == s.tasks[1..];
  }

  lemma {:induction false} ReportStale(s: Store, c: Candidate, n: nat) returns (moves: seq<Move>)
    requires c in s.rows && s.rows[c].status.Open() && n <= |s.tasks| && forall t :: t in s.tasks ==> t == Task(c, 0, None)
    ensures CanRun(s, moves) && forall x :: x in moves ==> !x.Pick?
    ensures var t := After(s, moves);
      && c in t.rows && t.rows[c].status.Open() && Recorded(t, c) == Recorded(s, c) + n
      && t.rows[c].attempts == if n > 0 then 1 else s.rows[c].attempts
    decreases n
  {
    if n == 0 {
      moves := [];
    } else {
      var next := ReportOnce(s, c);
      hide *;
      assert forall t :: t in next.tasks ==> t in s.tasks;
      var rest := ReportStale(next, c, n - 1);
      RunOne(s, MarkTransient(0, 0));
      RunConcat(s, [MarkTransient(0, 0)], rest);
      moves := [MarkTransient(0, 0)] + rest;
    }
  }

  /** There is no bound for all overlaps: `n` tasks that all read the candidate before any of them reported set its row
      back to one attempt each time, so `n` transient outcomes are recorded while the row says one. */
  lemma StaleTasksForgetAttempts(c: Candidate, n: nat) returns (moves: seq<Move>)
    requires n > 0
    ensures CanRun(EMPTY, moves) && AtMostTasksPer(EMPTY, moves, n)
    ensures var s := After(EMPTY, moves); c in s.rows && s.rows[c].attempts == 1 && Recorded(s, c) == n
  {
    var picks := PickManyTimes(c, n);
    var reports := ReportStale(After(EMPTY, picks), c, n);
    WithoutPicks(After(EMPTY, picks), reports, n);
    hide Apply, Enabled, AtMostTasksPer;
    RunConcat(EMPTY, picks, reports);
    OverlapConcat(EMPTY, picks, reports, n);
    moves := picks + reports;
  }

  // ----- exactly when the bound holds -----

  /** One more move in front, allowed by the overlap. */
  lemma MovePush(s: Store, x: Move, rest: seq<Move>, m: nat)
    requires Enabled(s, x) && CanRun(Apply(s, x), rest) && AtMostTasksPer(Apply(s, x), rest, m)
    requires x.Pick? ==> |Busy(s, x.candidate)| < m
    ensures CanRun(s, [x] + rest) && AtMostTasksPer(s, [x] + rest, m)
    ensures After(s, [x] + rest) == After(Apply(s, x), rest)
  {
    assert ([x] + rest)[1..] == rest;
    hide Enabled, Apply, Busy;
  }

  /** Nobody works on the candidate, which is open after `n` attempts of which the history recorded `recorded`. */
  ghost predicate Resting(s: Store, c: Candidate, n: nat, recorded: nat) {
    s.tasks == [] && c in s.rows && s.rows[c].status.Open() && s.rows[c].attempts == n && Recorded(s, c) == recorded
  }

  /** Two tasks read the same attempts; each of their transient outcomes is recorded, the row counts one. */
  lemma TwoForOne(s: Store, c: Candidate, n: nat, recorded: nat) returns (moves: seq<Move>)
    requires Resting(s, c, n, recorded) && n + 1 < MAX_TRANSIENT_ATTEMPTS
    ensures CanRun(s, moves) && AtMostTasksPer(s, moves, 2) && Resting(After(s, moves), c, n + 1, recorded + 2)
  {
    var now := s.rows[c].nextAttemptAt;
    var pick, mark := Pick(c, now), MarkTransient(0, now);
    var t := Task(c, n, None);
    var s1, s2 := s.(tasks := [t]), s.(tasks := [t, t]);
    assert Apply(s, pick) == s1 && Apply(s1, pick) == s2 by { assert [] + [t] == [t] && [t] + [t] == [t, t]; }
    assert Busy(s, c) == {} && Busy(s1, c) == {0};
    var s3 := Apply(s2, mark);
    assert s3.tasks == [t] by { assert s2.tasks[..0] + s2.tasks[1..] == [t]; }
    var s4 := Apply(s3, mark);
    assert s4.tasks == [] by { assert s3.tasks[..0] + s3.tasks[1..] == []; }
    assert Resting(s4, c, n + 1, recorded + 2);
    assert CanRun(s4, []) && AtMostTasksPer(s4, [], 2);
    hide *;
    MovePush(s3, mark, [], 2);
    MovePush(s2, mark, [mark] + [], 2);
    MovePush(s1, pick, [mark] + ([mark] + []), 2);
    MovePush(s, pick, [pick] + ([mark] + ([mark] + [])), 2);
    moves := [pick] + ([pick] + ([mark] + ([mark] + [])));
  }

  lemma {:induction false} TwoForEach(c: Candidate, n: nat) returns (moves: seq<Move>)
    requires n < MAX_TRANSIENT_ATTEMPTS
    ensures CanRun(EMPTY, moves) && AtMostTasksPer(EMPTY, moves, 2) && Resting(After(EMPTY, moves), c, n, 2 * n)
  {
    if n == 0 {
      var s := Apply(EMPTY, Queue(c));
      assert Resting(s, c, 0, 0) && CanRun(s, []) && AtMostTasksPer(s, [], 2);
      moves := [Queue(c)] + [];
      MovePush(EMPTY, Queue(c), [], 2);
    } else {
      var before := TwoForEach(c, n - 1);
      var more := TwoForOne(After(EMPTY, before), c, n - 1, 2 * (n - 1));
      hide *;
      RunConcat(EMPTY, before, more);
      OverlapConcat(EMPTY, before, more, 2);
      moves := before + more;
    }
  }

  /** However moves interleave, six transient outcomes at most, with up to `m` tasks on a candidate. */
  ghost predicate BoundHolds(m: nat) {
    forall moves, c :: CanRun(EMPTY, moves) && AtMostTasksPer(EMPTY, moves, m) ==>
      Recorded(After(EMPTY, moves), c) <= 6
  }

  /** The bound holds over every run exactly when no candidate may have two tasks at a time: with two, every attempt can
      be recorded twice. */
  lemma SixTransientOutcomesIff(m: nat)
    ensures BoundHolds(m) <==> m <= 1
  {
    if m <= 1 {
      forall moves, c | CanRun(EMPTY, moves) && AtMostTasksPer(EMPTY, moves, m)
        ensures Recorded(After(EMPTY, moves), c) <= 6
      {
        MoreTasksAreAllowed(EMPTY, moves, m, 1);
        SixTransientOutcomesAtMost(moves, c);
      }
    } else {
      var c := M.Candidate(M.Name(""), M.Name(""));
      var moves := TwoForEach(c, 4);
      MoreTasksAreAllowed(EMPTY, moves, 2, m);
      assert Recorded(After(EMPTY, moves), c) == 8;
    }
  }

  // ----- one process under the lock -----

  /** What one process does at a time: it selects a batch and validates it. `work` is any interleaving of the
      batch's tasks, and of whatever the database sees meanwhile. */
  datatype Round = Round(now: int, batch: seq<Candidate>, work: seq<Move>)

  function Picks(now: int, batch: seq<Candidate>): seq<Move> {
    if batch == [] then [] else [Pick(batch[0], now)] + Picks(now, batch[1..])
  }

  function MovesOf(r: Round): seq<Move> {
    Picks(r.now, r.batch) + r.work
  }

  function AllMoves(rounds: seq<Round>): seq<Move> {
    if rounds == [] then [] else MovesOf(rounds[0]) + AllMoves(rounds[1..])
  }

  /** The rows of a batch are different candidates, and the next batch is not selected before all its tasks are done or
      the process has died: every caller awaits the batch, and the next process needs the lock. */
  ghost predicate OneProcess(s: Store, rounds: seq<Round>)
    decreases |rounds|
  {
    rounds != [] ==>
      && Distinct(rounds[0].batch) && CanRun(s, MovesOf(rounds[0]))
      && (forall m :: m in rounds[0].work ==> !m.Pick?)
      && After(s, MovesOf(rounds[0])).tasks == []
      && OneProcess(After(s, MovesOf(rounds[0])), rounds[1..])
  }

  /** Picking different candidates, none of which has a task. */
  lemma {:induction false} PicksDoNotOverlap(s: Store, now: int, batch: seq<Candidate>, rest: seq<Move>)
    requires CanRun(s, Picks(now, batch) + rest) && Distinct(batch) && forall m :: m in rest ==> !m.Pick?
    requires forall c :: c in batch ==> Busy(s, c) == {}
    ensures AtMostTasksPer(s, Picks(now, batch) + rest, 1)
    decreases |batch|
  {
    if batch == [] {
      assert [] + rest == rest;
      WithoutPicks(s, rest, 1);
    } else {
      var pick, later := Pick(batch[0], now), Picks(now, batch[1..]) + rest;
      assert Picks(now, batch) + rest == [pick] + later && ([pick] + later)[1..] == later;
      var next := Apply(s, pick);
      forall c | c in batch[1..] ensures Busy(next, c) == {} {
        assert Busy(s, c) == {} && c != batch[0];
        forall k: nat | k < |next.tasks| ensures next.tasks[k].candidate != c {
          if k < |s.tasks| { assert k !in Busy(s, c); }
        }
      }
      assert Busy(s, batch[0]) == {};
      hide Apply, Enabled, Busy;
      PicksDoNotOverlap(next, now, batch[1..], rest);
      MovePush(s, pick, later, 1);
    }
  }

  /** A process under the lock never has two tasks on one candidate. */
  lemma {:induction false} OneProcessNeverOverlaps(s: Store, rounds: seq<Round>)
    requires OneProcess(s, rounds) && s.tasks == []
    ensures CanRun(s, AllMoves(rounds)) && AtMostTasksPer(s, AllMoves(rounds), 1)
    decreases |rounds|
  {
    if rounds != [] {
      var first := rounds[0];
      assert forall c :: Busy(s, c) == {};
      hide Busy, Picks;
      PicksDoNotOverlap(s, first.now, first.batch, first.work);
      OneProcessNeverOverlaps(After(s, MovesOf(first)), rounds[1..]);
      RunConcat(s, MovesOf(first), AllMoves(rounds[1..]));
      OverlapConcat(s, MovesOf(first), AllMoves(rounds[1..]), 1);
    }
  }

  /** So over any number of batches, processes and crashes the bound holds for the program as it is deployed. */
  lemma ProgramKeepsBound(rounds: seq<Round>, c: Candidate)
    requires OneProcess(EMPTY, rounds)
    ensures CanRun(EMPTY, AllMoves(rounds))
    ensures var s := After(EMPTY, AllMoves(rounds));
      && Recorded(s, c) <= 6
      && (c in s.rows && s.rows[c].status.Unresolved? ==> Recorded(s, c) == 6)
  {
    OneProcessNeverOverlaps(EMPTY, rounds);
    SixTransientOutcomesAtMost(AllMoves(rounds), c);
  }
}

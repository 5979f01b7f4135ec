/**
 * Draining the candidate queue: batches of ready candidates until none is open, sleeping only towards the next
 * retry. What validation answers, and how long everything takes, is arbitrary.
 */
module CandidateDrain {
  import opened Basics
  import opened RetryPolicy
  import opened AuditModel
  import opened CandidateLifecycle

  const VALIDATION_BATCH_SIZE: nat := 50
  const VALIDATION_CONCURRENCY: nat := 5

  datatype Outcome = Temporary | Settled(status: Status)

  predicate Admissible(o: Outcome) {
    o.Settled? ==> HasCounterOrWaits(o.status)
  }

  /** What the look-up and validation of a candidate answer on the attempt after `n` failed ones. */
  type Answers = (Candidate, nat) -> Outcome

  ghost predicate AllAdmissible(answers: Answers) {
    forall c, n :: Admissible(answers(c, n))
  }

  /** The answer is recorded: a final status, or the next attempt, or giving up on the sixth. */
  predicate Answered(o: Outcome, a: Row, b: Row, now: int) {
    b == match o
         case Settled(status) => Row(status, a.attempts, a.nextAttemptAt)
         case Temporary =>
           if a.attempts + 1 >= 6 then Row(Unresolved, a.attempts, a.nextAttemptAt)
           else Row(Retry, a.attempts + 1, now + RetryDelay(a.attempts + 1))
  }

  ghost predicate AnsweredBetween(answers: Answers, c: Candidate, a: Row, b: Row, from: int, to: int) {
    exists now :: from <= now <= to && Answered(answers(c, a.attempts), a, b, now)
  }

  /** What becomes of a candidate with `n` failed attempts behind it: the first final answer, or unresolved. */
  function VerdictFrom(answers: Answers, c: Candidate, n: nat): Status
    decreases 6 - n
  {
    match answers(c, n)
    case Settled(status) => status
    case Temporary => if n + 1 >= 6 then Unresolved else VerdictFrom(answers, c, n + 1)
  }

  /** Where a row is heading, or has arrived. */
  predicate SameDestiny(answers: Answers, c: Candidate, a: Row, b: Row) {
    if !a.status.Open() then b == a
    else if b.status.Open() then VerdictFrom(answers, c, b.attempts) == VerdictFrom(answers, c, a.attempts)
    else b.status == VerdictFrom(answers, c, a.attempts)
  }

  ghost predicate Destined(answers: Answers, a: map<Candidate, Row>, b: map<Candidate, Row>) {
    a.Keys == b.Keys && forall c :: c in a ==> SameDestiny(answers, c, a[c], b[c])
  }

  lemma DestinyComposes(answers: Answers, a: map<Candidate, Row>, b: map<Candidate, Row>, c: map<Candidate, Row>)
    requires Destined(answers, a, b) && Destined(answers, b, c)
    ensures Destined(answers, a, c)
  {
    hide VerdictFrom;
    forall x | x in a ensures SameDestiny(answers, x, a[x], c[x]) {
      assert SameDestiny(answers, x, a[x], b[x]) && SameDestiny(answers, x, b[x], c[x]);
    }
  }

  lemma AnswerKeepsDestiny(answers: Answers, c: Candidate, a: Row, b: Row, now: int)
    requires a.status.Open() && Admissible(answers(c, a.attempts)) && Answered(answers(c, a.attempts), a, b, now)
    ensures SameDestiny(answers, c, a, b)
  {}

  // ----- which candidates a batch takes -----

  predicate Ready(rows: map<Candidate, Row>, c: Candidate, now: int) {
    c in rows && rows[c].status.Open() && rows[c].nextAttemptAt <= now
  }

  /** The ready candidates with `attempts` attempts behind them, oldest first. */
  function Bucket(rows: map<Candidate, Row>, order: seq<Candidate>, now: int, attempts: nat): (r: seq<Candidate>)
    ensures forall c :: c in r <==> c in order && Ready(rows, c, now) && rows[c].attempts == attempts
    ensures Distinct(order) ==> Distinct(r)
  {
    if order == [] then []
    else
      var front, last := Bucket(rows, order[..|order|-1], now, attempts), order[|order|-1];
      assert order == order[..|order|-1] + [last];
      if Ready(rows, last, now) && rows[last].attempts == attempts then front + [last] else front
  }

  /** Fewest attempts first, oldest first among equals. */
  function ReadyOrder(rows: map<Candidate, Row>, order: seq<Candidate>, now: int, below: nat): (r: seq<Candidate>)
    ensures forall c :: c in r <==> c in order && Ready(rows, c, now) && rows[c].attempts < below
    ensures Distinct(order) ==> Distinct(r)
  {
    if below == 0 then []
    else
      var fewer, most := ReadyOrder(rows, order, now, below - 1), Bucket(rows, order, now, below - 1);
      assert forall i :: 0 <= i < |fewer| ==> fewer[i] in fewer && fewer[i] !in most;
      assert forall j :: 0 <= j < |most| ==> most[j] in most;
      fewer + most
  }

  /** `c` was queued before `d`. */
  ghost predicate Older(order: seq<Candidate>, c: Candidate, d: Candidate) {
    exists i, j :: 0 <= i < j < |order| && order[i] == c && order[j] == d
  }

  /** `c` comes before `d`: fewer attempts behind it, or as many and queued earlier. */
  ghost predicate ComesFirst(rows: map<Candidate, Row>, order: seq<Candidate>, c: Candidate, d: Candidate) {
    && c in rows && d in rows
    && (rows[c].attempts < rows[d].attempts || (rows[c].attempts == rows[d].attempts && Older(order, c, d)))
  }

  ghost predicate InTurn(rows: map<Candidate, Row>, order: seq<Candidate>, r: seq<Candidate>) {
    forall i, j :: 0 <= i < j < |r| ==> ComesFirst(rows, order, r[i], r[j])
  }

  lemma OlderStays(order: seq<Candidate>, last: Candidate, c: Candidate, d: Candidate)
    ensures Older(order, c, d) ==> Older(order + [last], c, d)
    ensures c in order ==> Older(order + [last], c, last)
  {
    if Older(order, c, d) {
      var i, j :| 0 <= i < j < |order| && order[i] == c && order[j] == d;
      assert (order + [last])[i] == c && (order + [last])[j] == d;
    }
    if c in order {
      var i :| 0 <= i < |order| && order[i] == c;
      assert (order + [last])[i] == c && (order + [last])[|order|] == last;
    }
  }

  lemma {:induction false} BucketInTurn(rows: map<Candidate, Row>, order: seq<Candidate>, now: int, attempts: nat)
    ensures InTurn(rows, order, Bucket(rows, order, now, attempts))
  {
    if order != [] {
      var front, last := order[..|order|-1], order[|order|-1];
      BucketInTurn(rows, front, now, attempts);
      assert order == front + [last];
      var before, r := Bucket(rows, front, now, attempts), Bucket(rows, order, now, attempts);
      forall i, j | 0 <= i < j < |r| ensures ComesFirst(rows, order, r[i], r[j]) {
        assert r[i] in r && r[j] in r && before[i] in before;
        OlderStays(front, last, r[i], r[j]);
      }
    }
  }

  lemma InTurnJoin(rows: map<Candidate, Row>, order: seq<Candidate>, front: seq<Candidate>, last: seq<Candidate>, n: nat)
    requires InTurn(rows, order, front) && forall c :: c in front ==> c in rows && rows[c].attempts < n
    requires InTurn(rows, order, last) && forall c :: c in last ==> c in rows && rows[c].attempts == n
    ensures InTurn(rows, order, front + last)
  {
    var r := front + last;
    hide Older;
    forall i, j | 0 <= i < j < |r| ensures ComesFirst(rows, order, r[i], r[j]) {
      if j < |front| {
        assert r[i] == front[i] && r[j] == front[j];
      } else {
        assert r[j] == last[j - |front|];
        if i < |front| { assert r[i] == front[i] && front[i] in front; } else { assert r[i] == last[i - |front|]; }
      }
    }
  }

  /** Ready candidates come by attempts, so those that keep failing do not hold up new ones, and by age among equals. */
  lemma {:induction false} FewestAttemptsFirst(rows: map<Candidate, Row>, order: seq<Candidate>, now: int, below: nat)
    ensures InTurn(rows, order, ReadyOrder(rows, order, now, below))
  {
    hide *;
    if below == 0 {
      NoneBelowZero(rows, order, now);
    } else {
      FewestAttemptsFirst(rows, order, now, below - 1);
      OneMoreBucket(rows, order, now, below - 1);
    }
  }

  lemma NoneBelowZero(rows: map<Candidate, Row>, order: seq<Candidate>, now: int)
    ensures InTurn(rows, order, ReadyOrder(rows, order, now, 0))
  {
    assert ReadyOrder(rows, order, now, 0) == [];
  }

  lemma OneMoreBucket(rows: map<Candidate, Row>, order: seq<Candidate>, now: int, n: nat)
    requires InTurn(rows, order, ReadyOrder(rows, order, now, n))
    ensures InTurn(rows, order, ReadyOrder(rows, order, now, n + 1))
  {
    var front, last := ReadyOrder(rows, order, now, n), Bucket(rows, order, now, n);
    assert ReadyOrder(rows, order, now, n + 1) == front + last;
    assert forall c :: c in front ==> Ready(rows, c, now) && rows[c].attempts < n;
    assert forall c :: c in last ==> Ready(rows, c, now) && rows[c].attempts == n;
    assert forall c :: Ready(rows, c, now) ==> c in rows;
    hide *;
    BucketInTurn(rows, order, now, n);
    InTurnJoin(rows, order, front, last, n);
  }

  function Take<T>(s: seq<T>, n: nat): seq<T> {
    if n < |s| then s[..n] else s
  }

  // ----- how much is left -----

  function Left(rows: map<Candidate, Row>, c: Candidate): nat {
    if c in rows && rows[c].status.Open() && rows[c].attempts < MAX_TRANSIENT_ATTEMPTS
    then MAX_TRANSIENT_ATTEMPTS - rows[c].attempts else 0
  }

  /** Attempts the open candidates still have. */
  function AttemptsLeft(rows: map<Candidate, Row>, order: seq<Candidate>): nat {
    if order == [] then 0 else AttemptsLeft(rows, order[..|order|-1]) + Left(rows, order[|order|-1])
  }

  lemma {:induction false} OneLess(a: map<Candidate, Row>, b: map<Candidate, Row>, order: seq<Candidate>, c: Candidate)
    requires forall d :: d != c ==> Left(b, d) == Left(a, d)
    requires Left(b, c) < Left(a, c)
    ensures AttemptsLeft(b, order) <= AttemptsLeft(a, order)
    ensures c in order ==> AttemptsLeft(b, order) < AttemptsLeft(a, order)
  {
    hide Left;
    if order != [] {
      OneLess(a, b, order[..|order|-1], c);
      assert order == order[..|order|-1] + [order[|order|-1]];
    }
  }

  /** What becomes of a row: a classified one stays, an open one never loses attempts, and it is given up only when the
      sixth attempt fails. */
  predicate Evolved(a: Row, b: Row) {
    if a.status.Open() then a.attempts <= b.attempts && (b.status.Unresolved? ==> b.attempts == MAX_TRANSIENT_ATTEMPTS - 1)
    else b == a
  }

  ghost predicate RowsEvolved(a: map<Candidate, Row>, b: map<Candidate, Row>) {
    a.Keys == b.Keys && forall c :: c in a ==> Evolved(a[c], b[c])
  }

  lemma EvolutionComposes(a: map<Candidate, Row>, b: map<Candidate, Row>, c: map<Candidate, Row>)
    requires RowsEvolved(a, b) && RowsEvolved(b, c)
    ensures RowsEvolved(a, c)
  {}

  /** Any answer to an attempt uses it up: it is classified, or it has one attempt less. */
  lemma AnAnswerUsesUpAnAttempt(s: Store, next: Store, order: seq<Candidate>, c: Candidate, outcome: Outcome, now: int)
    requires c in s.rows && c in order && s.rows[c].status.Open() && s.rows[c].attempts < MAX_TRANSIENT_ATTEMPTS
    requires Admissible(outcome)
    requires next == if outcome.Temporary? then TriedAgainLater(s, c, s.rows[c].attempts + 1, now)
                     else Classified(s, c, outcome.status)
    ensures next.rows.Keys == s.rows.Keys && forall d :: d in s.rows && d != c ==> next.rows[d] == s.rows[d]
    ensures next.rows[c].attempts < MAX_TRANSIENT_ATTEMPTS && RowsEvolved(s.rows, next.rows)
    ensures Answered(outcome, s.rows[c], next.rows[c], now)
    ensures AttemptsLeft(next.rows, order) < AttemptsLeft(s.rows, order)
  {
    assert Left(next.rows, c) < Left(s.rows, c);
    assert forall d :: d != c ==> Left(next.rows, d) == Left(s.rows, d);
    OneLess(s.rows, next.rows, order, c);
  }

  function Members<T>(s: seq<T>): set<T> {
    set x | x in s
  }

  /** The candidates `done` of a batch have been processed, and nothing that was not ready. */
  ghost predicate Progress(answers: Answers, before: map<Candidate, Row>, after: map<Candidate, Row>, order: seq<Candidate>,
                           now: int, later: int, done: set<Candidate>)
  {
    && (forall c :: c in done ==> c in before && c in after && AnsweredBetween(answers, c, before[c], after[c], now, later))
    && RowsEvolved(before, after)
    && (forall c :: c in before && c !in done ==> after[c] == before[c])
    && (forall c :: c in done ==> Ready(before, c, now))
    && (done == {} ==> after == before)
    && (done != {} ==> AttemptsLeft(after, order) < AttemptsLeft(before, order))
  }

  lemma OneMoreProcessed(answers: Answers, before: map<Candidate, Row>, mid: map<Candidate, Row>, after: map<Candidate, Row>,
                         order: seq<Candidate>, now: int, midway: int, later: int, done: set<Candidate>, c: Candidate)
    requires Progress(answers, before, mid, order, now, midway, done) && Ready(before, c, now) && c !in done
    requires RowsEvolved(mid, after) && forall d :: d in mid && d != c ==> after[d] == mid[d]
    requires AttemptsLeft(after, order) < AttemptsLeft(mid, order)
    requires now <= midway <= later && c in before && c in after && Answered(answers(c, before[c].attempts), before[c], after[c], later)
    ensures Progress(answers, before, after, order, now, later, done + {c})
  {
    EvolutionComposes(before, mid, after);
    hide AttemptsLeft, Evolved, Ready, Answered;
  }

  /** Whoever was answered keeps its destiny, and so does whoever was not. */
  lemma ProgressIsDestined(answers: Answers, before: map<Candidate, Row>, after: map<Candidate, Row>, order: seq<Candidate>,
                           now: int, later: int, done: set<Candidate>)
    requires Progress(answers, before, after, order, now, later, done) && AllAdmissible(answers)
    ensures Destined(answers, before, after)
  {
    forall c | c in before ensures SameDestiny(answers, c, before[c], after[c]) {
      if c in done {
        var at :| now <= at <= later && Answered(answers(c, before[c].attempts), before[c], after[c], at);
        AnswerKeepsDestiny(answers, c, before[c], after[c], at);
      }
    }
    hide AttemptsLeft, Evolved, SameDestiny, Answered;
  }

  predicate SomeOpen(rows: map<Candidate, Row>) {
    exists c :: c in rows && rows[c].status.Open()
  }

  /** The least retry time of an open candidate. */
  function NextRetry(rows: map<Candidate, Row>, order: seq<Candidate>): (r: Option<int>)
    ensures r.None? <==> forall c :: c in order && c in rows ==> !rows[c].status.Open()
    ensures r.Some? ==> forall c :: c in order && c in rows && rows[c].status.Open() ==> r.value <= rows[c].nextAttemptAt
    ensures r.Some? ==> exists c :: c in order && c in rows && rows[c].status.Open() && r.value == rows[c].nextAttemptAt
  {
    if order == [] then None
    else
      var front, last := NextRetry(rows, order[..|order|-1]), order[|order|-1];
      assert order == order[..|order|-1] + [last];
      if last in rows && rows[last].status.Open() && (front.None? || rows[last].nextAttemptAt < front.value)
      then Some(rows[last].nextAttemptAt) else front
  }

  /** How long until the least retry time. */
  function UntilRetry(rows: map<Candidate, Row>, order: seq<Candidate>, now: int): Option<int> {
    var next := NextRetry(rows, order);
    if next.Some? then Some(next.value - now) else None
  }

  /** A pause of the drain, `left` milliseconds before the next retry. */
  datatype Nap = Nap(left: int, milliseconds: nat)

  class CandidateTable {
    var order: seq<Candidate>          // creation order
    var rows: map<Candidate, Row>
    var tally: Tally
    var clock: int
    ghost var naps: seq<Nap>

    ghost predicate Valid()
      reads this
    {
      && Distinct(order) && rows.Keys == (set c | c in order)
      && (forall c :: c in rows ==> rows[c].attempts < MAX_TRANSIENT_ATTEMPTS)
      && Tallied(Contents())
    }

    ghost function Contents(): Store
      reads this
    {
      Store(rows, tally, map[], [], map[])
    }

    constructor ()
      ensures Valid() && rows == map[]
    {
      order, rows, tally, clock, naps := [], map[], Tally(0, 0, 0, 0, 0), 0, [];
      new;
      forall status | HasCounter(status) ensures |WithStatus(rows, status)| == 0 {
        assert WithStatus(rows, status) == {};
      }
    }

    /** The guarded update of a final status and of its counter. */
    method UpdateCandidateOutcome(c: Candidate, status: Status)
      modifies this`rows, this`tally
      ensures Contents() == Classified(old(Contents()), c, status)
      ensures if c in old(rows) && old(rows)[c].status.Open()
              then rows == old(rows)[c := Row(status, old(rows)[c].attempts, old(rows)[c].nextAttemptAt)]
              else rows == old(rows) && tally == old(tally)
    {
      if c in rows && rows[c].status.Open() {
        rows := rows[c := rows[c].(status := status)];
        tally := tally.Plus(status);
      }
    }

    method MarkTransient(c: Candidate, attempts: nat)
      modifies this`rows, this`tally
      ensures Contents() == TriedAgainLater(old(Contents()), c, attempts, clock)
      ensures if c in old(rows) && old(rows)[c].status.Open()
              then rows == old(rows)[c := if attempts >= 6
                     then Row(Unresolved, old(rows)[c].attempts, old(rows)[c].nextAttemptAt)
                     else Row(Retry, attempts, clock + RetryDelay(attempts))]
              else rows == old(rows) && tally == old(tally)
    {
      if attempts >= MAX_TRANSIENT_ATTEMPTS {
        UpdateCandidateOutcome(c, Unresolved);
      } else if c in rows && rows[c].status.Open() {
        rows := rows[c := Row(Retry, attempts, clock + RetryDelay(attempts))];
      }
    }

    /** Look up, validate and record one candidate, whatever the answer is. */
    method ProcessCandidate(answers: Answers, c: Candidate, attempts: nat)
      requires Valid() && c in rows && rows[c].status.Open() && rows[c].attempts == attempts
      requires Admissible(answers(c, attempts))
      modifies this`rows, this`tally, this`clock
      ensures Valid() && old(clock) <= clock
      ensures RowsEvolved(old(rows), rows) && forall d :: d in rows && d != c ==> rows[d] == old(rows)[d]
      ensures AttemptsLeft(rows, order) < AttemptsLeft(old(rows), order)
      ensures c in rows && Answered(answers(c, attempts), old(rows)[c], rows[c], clock)
    {
      hide AttemptsLeft, Tallied, TriedAgainLater, Classified;
      var outcome := answers(c, attempts);
      var elapsed: nat :| 0 <= elapsed;
      clock := clock + elapsed;
      assert c in order;
      ghost var before := Contents();
      if outcome.Temporary? {
        TriedAgainTallied(before, c, attempts + 1, clock);
        MarkTransient(c, attempts + 1);
      } else {
        ClassifiedTallied(before, c, outcome.status);
        UpdateCandidateOutcome(c, outcome.status);
      }
      AnAnswerUsesUpAnAttempt(before, Contents(), order, c, outcome, clock);
    }

    /** One batch of at most fifty ready candidates, five at a time; the five of a group answer in any order. Nothing is
        processed only when nothing is ready. */
    method ProcessReadyCandidates(answers: Answers) returns (processed: nat)
      requires Valid() && AllAdmissible(answers)
      modifies this`rows, this`tally, this`clock
      ensures Valid() && old(clock) <= clock
      ensures processed == |ReadyBatch(old(rows), order, old(clock))|
      ensures Progress(answers, old(rows), rows, order, old(clock), clock, Members(ReadyBatch(old(rows), order, old(clock))))
      ensures Destined(answers, old(rows), rows)
      ensures processed == 0 ==> clock == old(clock)
      ensures RowsEvolved(old(rows), rows)
      ensures processed > 0 ==> AttemptsLeft(rows, order) < AttemptsLeft(old(rows), order)
      ensures processed == 0 ==> rows == old(rows)
      ensures processed == 0 ==> match UntilRetry(rows, order, clock) case None => !SomeOpen(rows) case Some(left) => left > 0
    {
      hide AttemptsLeft, UntilRetry, Tallied, ReadyOrder, Take, Progress, RowsEvolved, Evolved, Answered, Destined, Admissible;
      var batch := ReadyBatch(rows, order, clock);
      BatchFacts(rows, order, clock);
      assert Progress(answers, rows, rows, order, clock, clock, {}) by { NothingProcessed(answers, rows, order, clock); }
      var snapshot := rows;
      var offset := 0;
      ghost var done: set<Candidate> := {};
      while offset < |batch|
        invariant offset <= |batch| && Valid() && old(clock) <= clock
        invariant done == Members(batch[..offset])
        invariant Progress(answers, snapshot, rows, order, old(clock), clock, done)
        invariant offset == 0 ==> clock == old(clock)
        decreases |batch| - offset
      {
        var end := if offset + VALIDATION_CONCURRENCY < |batch| then offset + VALIDATION_CONCURRENCY else |batch|;
        var waiting := batch[offset..end];
        GroupBegins(batch, offset, end);
        while waiting != []
          invariant Valid() && old(clock) <= clock && InGroup(batch, end, waiting, done)
          invariant Progress(answers, snapshot, rows, order, old(clock), clock, done)
          decreases |waiting|
        {
          var k :| 0 <= k < |waiting|;
          var c := waiting[k];
          GroupGoesOn(batch, end, waiting, done, k);
          StillAsSelected(answers, snapshot, rows, order, old(clock), clock, done, c);
          ghost var mid, midway := rows, clock;
          ProcessCandidate(answers, c, snapshot[c].attempts);
          OneMoreProcessed(answers, snapshot, mid, rows, order, old(clock), midway, clock, done, c);
          waiting, done := waiting[..k] + waiting[k+1..], done + {c};
        }
        offset := end;
      }
      assert batch[..offset] == batch;
      processed := |batch|;
      BatchOutcome(answers, snapshot, rows, order, old(clock), clock, processed);
      ProgressIsDestined(answers, snapshot, rows, order, old(clock), clock, done);
      if processed == 0 && UntilRetry(rows, order, clock).None? { NothingOpen(rows, order, clock); }
    }

    method Sleep(milliseconds: nat, ghost left: int)
      requires Valid()
      modifies this`clock, this`naps
      ensures Valid() && clock >= old(clock) + milliseconds && naps == old(naps) + [Nap(left, milliseconds)]
    {
      var oversleep: nat :| 0 <= oversleep;
      clock := clock + milliseconds + oversleep;
      naps := naps + [Nap(left, milliseconds)];
    }

    /** Returns when no candidate is open any more, after finitely many batches and naps. Classified rows stay as
        they were; every other candidate ends with its first final answer, or unresolved after six temporary ones; the
        counters still are the numbers of rows. A nap lasts until the next retry, but a second at least and a minute
        at most. */
    method DrainCandidates(answers: Answers)
      requires Valid() && AllAdmissible(answers)
      modifies this`rows, this`tally, this`clock, this`naps
      ensures Valid() && !SomeOpen(rows) && RowsEvolved(old(rows), rows)
      ensures rows.Keys == old(rows).Keys
      ensures forall c :: c in old(rows) ==>
                if old(rows)[c].status.Open() then rows[c].status == VerdictFrom(answers, c, old(rows)[c].attempts)
                else rows[c] == old(rows)[c]
      ensures SensibleFrom(naps, |old(naps)|)
    {
      ghost var initial, earlier := rows, |naps|;
      assert RowsEvolved(initial, rows) && Destined(answers, initial, rows) && SensibleFrom(naps, earlier);
      hide *;
      while true
        invariant Valid() && RowsEvolved(initial, rows) && Destined(answers, initial, rows)
        invariant SensibleFrom(naps, earlier)
        decreases AttemptsLeft(rows, order),
                  if UntilRetry(rows, order, clock).Some? then UntilRetry(rows, order, clock).value else 0
      {
        ghost var before := rows;
        var processed := ProcessReadyCandidates(answers);
        EvolutionComposes(initial, before, rows);
        DestinyComposes(answers, initial, before, rows);
        if processed == 0 {
          var left := UntilRetry(rows, order, clock);
          if left.None? {
            EverybodyArrived(answers, initial, rows);
            return;
          }
          ghost var now := clock;
          var waitMs := if left.value < 1000 then 1000 else if left.value > 60000 then 60000 else left.value;
          OneMoreNap(naps, earlier, left.value, waitMs);
          Sleep(waitMs, left.value);
          TimeGoesBy(rows, order, now, clock - now);
        }
      }
    }
  }

  predicate SensibleNap(n: Nap) {
    n.milliseconds == if n.left < 1000 then 1000 else if n.left > 60_000 then 60_000 else n.left
  }

  ghost predicate SensibleFrom(naps: seq<Nap>, k: nat) {
    k <= |naps| && forall j :: k <= j < |naps| ==> SensibleNap(naps[j])
  }

  lemma OneMoreNap(naps: seq<Nap>, k: nat, left: int, ms: nat)
    requires SensibleFrom(naps, k) && ms == if left < 1000 then 1000 else if left > 60_000 then 60_000 else left
    ensures SensibleFrom(naps + [Nap(left, ms)], k)
  {}

  lemma EverybodyArrived(answers: Answers, a: map<Candidate, Row>, b: map<Candidate, Row>)
    requires Destined(answers, a, b) && !SomeOpen(b)
    ensures a.Keys == b.Keys
    ensures forall c :: c in a ==>
      if a[c].status.Open() then b[c].status == VerdictFrom(answers, c, a[c].attempts) else b[c] == a[c]
  {
    hide VerdictFrom;
    forall c | c in a ensures SameDestiny(answers, c, a[c], b[c]) && !b[c].status.Open() {}
  }

  lemma TimeGoesBy(rows: map<Candidate, Row>, order: seq<Candidate>, now: int, elapsed: int)
    ensures UntilRetry(rows, order, now).Some? ==>
      UntilRetry(rows, order, now + elapsed) == Some(UntilRetry(rows, order, now).value - elapsed)
  {
    hide NextRetry;
  }

  function ReadyBatch(rows: map<Candidate, Row>, order: seq<Candidate>, now: int): seq<Candidate> {
    Take(ReadyOrder(rows, order, now, MAX_TRANSIENT_ATTEMPTS), VALIDATION_BATCH_SIZE)
  }

  /** A batch is the first fifty ready candidates in turn: at most fifty, each ready, in turn, and who is left out comes
      after all of a full batch. */
  lemma BatchIsFirstFifty(rows: map<Candidate, Row>, order: seq<Candidate>, now: int)
    requires Distinct(order) && rows.Keys == (set c | c in order)
    requires forall c :: c in rows ==> rows[c].attempts < MAX_TRANSIENT_ATTEMPTS
    ensures var batch := ReadyBatch(rows, order, now);
      && |batch| <= 50 && InTurn(rows, order, batch)
      && (forall c :: c in batch ==> c in rows && rows[c].status.Open() && rows[c].nextAttemptAt <= now)
      && (forall c :: c in rows && rows[c].status.Open() && rows[c].nextAttemptAt <= now && c !in batch ==>
            |batch| == 50 && forall d :: d in batch ==> ComesFirst(rows, order, d, c))
  {
    var ready, batch := ReadyOrder(rows, order, now, MAX_TRANSIENT_ATTEMPTS), ReadyBatch(rows, order, now);
    FewestAttemptsFirst(rows, order, now, MAX_TRANSIENT_ATTEMPTS);
    assert forall k :: 0 <= k < |batch| ==> batch[k] == ready[k];
    hide ReadyOrder, ComesFirst;
    forall c | c in rows && Ready(rows, c, now) && c !in batch
      ensures |batch| == 50 && forall d :: d in batch ==> ComesFirst(rows, order, d, c)
    {
      assert c in ready;
      var j :| 0 <= j < |ready| && ready[j] == c;
      assert |batch| <= j;
      forall d | d in batch ensures ComesFirst(rows, order, d, c) {
        var i :| 0 <= i < |batch| && batch[i] == d;
      }
    }
  }

  /** Of the candidates before `end`, those in `waiting` have yet to answer. */
  ghost predicate InGroup(batch: seq<Candidate>, end: nat, waiting: seq<Candidate>, done: set<Candidate>)
  {
    && end <= |batch| && Distinct(waiting)
    && (forall c :: c in waiting ==> c in batch && c !in done)
    && Members(batch[..end]) == done + Members(waiting)
  }

  lemma GroupBegins(batch: seq<Candidate>, offset: nat, end: nat)
    requires offset <= end <= |batch| && Distinct(batch)
    ensures InGroup(batch, end, batch[offset..end], Members(batch[..offset]))
  {
    assert batch[..end] == batch[..offset] + batch[offset..end];
    assert forall k :: offset <= k < end ==> batch[k] in batch;
  }

  lemma GroupGoesOn(batch: seq<Candidate>, end: nat, waiting: seq<Candidate>, done: set<Candidate>, k: nat)
    requires InGroup(batch, end, waiting, done) && k < |waiting|
    ensures waiting[k] in batch && waiting[k] !in done
    ensures InGroup(batch, end, waiting[..k] + waiting[k+1..], done + {waiting[k]})
  {
    var c, rest := waiting[k], waiting[..k] + waiting[k+1..];
    assert waiting == waiting[..k] + [c] + waiting[k+1..];
    assert Members(waiting) == Members(rest) + {c};
    assert c in waiting;
    forall x | x in rest ensures x in waiting && x != c {
      var j :| 0 <= j < |rest| && rest[j] == x;
      assert x == waiting[if j < k then j else j + 1];
    }
    forall i, j | 0 <= i < j < |rest| ensures rest[i] != rest[j] {
      assert rest[i] == waiting[if i < k then i else i + 1] && rest[j] == waiting[if j < k then j else j + 1];
    }
  }

  lemma NothingProcessed(answers: Answers, rows: map<Candidate, Row>, order: seq<Candidate>, now: int)
    ensures Progress(answers, rows, rows, order, now, now, {})
  {}

  lemma StillAsSelected(answers: Answers, before: map<Candidate, Row>, rows: map<Candidate, Row>, order: seq<Candidate>,
                        now: int, later: int, done: set<Candidate>, c: Candidate)
    requires Progress(answers, before, rows, order, now, later, done) && c !in done && Ready(before, c, now)
    ensures c in before && c in rows && rows[c] == before[c] && rows[c].status.Open()
  {}

  lemma BatchOutcome(answers: Answers, before: map<Candidate, Row>, rows: map<Candidate, Row>, order: seq<Candidate>, now: int,
                     later: int, processed: nat)
    requires Distinct(order) && before.Keys == (set c | c in order)
    requires forall c :: c in before ==> before[c].attempts < MAX_TRANSIENT_ATTEMPTS
    requires processed == |ReadyBatch(before, order, now)|
    requires Progress(answers, before, rows, order, now, later, Members(ReadyBatch(before, order, now)))
    ensures RowsEvolved(before, rows)
    ensures processed > 0 ==> AttemptsLeft(rows, order) < AttemptsLeft(before, order)
    ensures processed == 0 ==> rows == before && (UntilRetry(rows, order, now).Some? ==> UntilRetry(rows, order, now).value > 0)
  {
    BatchFacts(before, order, now);
    var batch := ReadyBatch(before, order, now);
    assert batch != [] ==> batch[0] in Members(batch);
    hide ReadyBatch, AttemptsLeft, Evolved;
    if processed == 0 && NextRetry(rows, order).Some? {
      var c :| c in order && c in rows && rows[c].status.Open() && NextRetry(rows, order).value == rows[c].nextAttemptAt;
      assert !Ready(before, c, now);
    }
  }

  lemma NothingOpen(rows: map<Candidate, Row>, order: seq<Candidate>, now: int)
    requires rows.Keys == (set c | c in order) && UntilRetry(rows, order, now).None?
    ensures !SomeOpen(rows)
  {}

  lemma BatchFacts(rows: map<Candidate, Row>, order: seq<Candidate>, now: int)
    requires Distinct(order) && rows.Keys == (set c | c in order)
    requires forall c :: c in rows ==> rows[c].attempts < MAX_TRANSIENT_ATTEMPTS
    ensures var batch := ReadyBatch(rows, order, now);
      && Distinct(batch) && (forall c :: c in batch ==> Ready(rows, c, now))
      && (batch == [] <==> forall c :: c in rows ==> !Ready(rows, c, now))
  {
    var ready := ReadyOrder(rows, order, now, MAX_TRANSIENT_ATTEMPTS);
    if ready == [] {
      forall c | c in rows ensures !Ready(rows, c, now) { assert c !in ready; }
    } else {
      assert ready[0] in ready;
    }
  }
}

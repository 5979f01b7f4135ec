/**
 * The life of a queued candidate: picked up, looked up, validated and classified by tasks that interleave at
 * every database write, with retries that are bounded and counters that always add up.
 */
module CandidateLifecycle {
  import opened Basics
  import opened RetryPolicy
  import opened AuditModel

  const MAX_TRANSIENT_ATTEMPTS: nat := 6

  datatype Row = Row(status: Status, attempts: nat, nextAttemptAt: int)

  datatype Tally = Tally(created: nat, existing: nat, retired: nat, parked: nat, unresolved: nat)
  {
    function Of(s: Status): nat {
      match s
      case Active => created
      case Existing => existing
      case Retired => retired
      case Parked => parked
      case Unresolved => unresolved
      case _ => 0
    }

    /** A catalogued candidate has no counter of its own. */
    function Plus(s: Status): Tally {
      match s
      case Active => this.(created := created + 1)
      case Existing => this.(existing := existing + 1)
      case Retired => this.(retired := retired + 1)
      case Parked => this.(parked := parked + 1)
      case Unresolved => this.(unresolved := unresolved + 1)
      case _ => this
    }
  }

  predicate HasCounter(s: Status) {
    !s.Open() && !s.DiscoveredWaiting?
  }

  /** A task works from the attempts it read; `verdict` is a classification reached but not yet written. */
  datatype Task = Task(candidate: Candidate, attempts: nat, verdict: Option<Status>)

  datatype Board = Live | RetiredBoard

  datatype Store = Store(
    rows: map<Candidate, Row>,
    tally: Tally,
    boards: map<Candidate, Board>,
    tasks: seq<Task>,
    recorded: map<Candidate, nat>)   // history: transient outcomes written for each candidate

  datatype Move =
    | Queue(candidate: Candidate)
    | Pick(candidate: Candidate, now: int)
    | FindExisting(task: nat)                  // the board table already has it
    | Catalogue(task: nat)                     // the platform waits for its first collection
    | RecordBoard(task: nat, success: bool)    // validated: the board row is created, or was there after all
    | WriteOutcome(task: nat)
    | MarkTransient(task: nat, now: int)
    | BoardChanges(candidate: Candidate, board: Board)
    | LoseTasks                                // a crash

  function RetryDelay(attempts: int): nat {
    if attempts <= 1 then 1 * MINUTE_MS
    else if attempts == 2 then 5 * MINUTE_MS
    else if attempts == 3 then 15 * MINUTE_MS
    else if attempts == 4 then 60 * MINUTE_MS
    else if attempts == 5 then 180 * MINUTE_MS
    else 360 * MINUTE_MS
  }

  predicate Enabled(s: Store, m: Move) {
    match m
    case Queue(c) => c !in s.rows
    case Pick(c, now) => c in s.rows && s.rows[c].status.Open() && s.rows[c].nextAttemptAt <= now
    case FindExisting(k) => k < |s.tasks| && s.tasks[k].verdict.None? && s.tasks[k].candidate in s.boards
    case Catalogue(k) => k < |s.tasks| && s.tasks[k].verdict.None?
    case RecordBoard(k, _) => k < |s.tasks| && s.tasks[k].verdict.None?
    case WriteOutcome(k) => k < |s.tasks| && s.tasks[k].verdict.Some?
    case MarkTransient(k, _) => k < |s.tasks| && s.tasks[k].verdict.None?
    case BoardChanges(_, _) => true
    case LoseTasks => true
  }

  function BoardStatus(b: Board): Status {
    if b.Live? then Existing else Retired
  }

  function Decided(s: Store, k: nat, verdict: Status): Store
    requires k < |s.tasks|
  {
    s.(tasks := s.tasks[k := s.tasks[k].(verdict := Some(verdict))])
  }

  function Dismissed(s: Store, k: nat): Store
    requires k < |s.tasks|
  {
    s.(tasks := s.tasks[..k] + s.tasks[k+1..])
  }

  /** The guarded update: only an open row is classified, and only then is its counter raised. */
  function Classified(s: Store, c: Candidate, status: Status): Store {
    if c in s.rows && s.rows[c].status.Open()
    then s.(rows := s.rows[c := s.rows[c].(status := status)], tally := s.tally.Plus(status))
    else s
  }

  function Recorded(s: Store, c: Candidate): nat {
    if c in s.recorded then s.recorded[c] else 0
  }

  function Noted(s: Store, c: Candidate): Store {
    if c in s.rows && s.rows[c].status.Open() then s.(recorded := s.recorded[c := Recorded(s, c) + 1]) else s
  }

  function Retried(s: Store, c: Candidate, attempts: nat, now: int): Store {
    if c in s.rows && s.rows[c].status.Open()
    then s.(rows := s.rows[c := Row(Retry, attempts, now + RetryDelay(attempts))])
    else s
  }

  /** The attempt was the last one, or there is a time for the next. */
  function TriedAgainLater(s: Store, c: Candidate, attempts: nat, now: int): Store {
    if attempts >= MAX_TRANSIENT_ATTEMPTS then Classified(s, c, Unresolved) else Retried(s, c, attempts, now)
  }

  function Apply(s: Store, m: Move): Store
    requires Enabled(s, m)
  {
    match m
    case Queue(c) => s.(rows := s.rows[c := Row(Pending, 0, 0)])
    case Pick(c, _) => s.(tasks := s.tasks + [Task(c, s.rows[c].attempts, None)])
    case FindExisting(k) => Decided(s, k, BoardStatus(s.boards[s.tasks[k].candidate]))
    case Catalogue(k) => Decided(s, k, DiscoveredWaiting)
    case RecordBoard(k, success) =>
      var c := s.tasks[k].candidate;
      if c in s.boards then Decided(s, k, BoardStatus(s.boards[c]))
      else Decided(s, k, if success then Active else Parked).(boards := s.boards[c := Live])
    case WriteOutcome(k) => Classified(Dismissed(s, k), s.tasks[k].candidate, s.tasks[k].verdict.value)
    case MarkTransient(k, now) =>
      var c, attempts := s.tasks[k].candidate, s.tasks[k].attempts + 1;
      TriedAgainLater(Noted(Dismissed(s, k), c), c, attempts, now)
    case BoardChanges(c, board) => s.(boards := s.boards[c := board])
    case LoseTasks => s.(tasks := [])
  }

  ghost predicate CanRun(s: Store, moves: seq<Move>)
    decreases |moves|
  {
    moves != [] ==> Enabled(s, moves[0]) && CanRun(Apply(s, moves[0]), moves[1..])
  }

  ghost function After(s: Store, moves: seq<Move>): Store
    requires CanRun(s, moves)
    decreases |moves|
  {
    if moves == [] then s else After(Apply(s, moves[0]), moves[1..])
  }

  const EMPTY := Store(map[], Tally(0, 0, 0, 0, 0), map[], [], map[])

  /** What a lookup or a validation may decide. */
  predicate HasCounterOrWaits(s: Status) {
    !s.Open() && !s.Unresolved?
  }

  // ----- terminal statuses are absorbing -----

  predicate Closed(s: Store, c: Candidate) {
    c in s.rows && !s.rows[c].status.Open()
  }

  /** However tasks interleave, crash and work from stale reads, a classified row never changes again. */
  lemma {:induction false} ClassificationIsFinal(s: Store, moves: seq<Move>, c: Candidate)
    requires CanRun(s, moves) && Closed(s, c)
    ensures c in After(s, moves).rows && After(s, moves).rows[c] == s.rows[c]
    decreases |moves|
  {
    if moves != [] {
      OneMoveIsFinal(s, moves[0], c);
      ClassificationIsFinal(Apply(s, moves[0]), moves[1..], c);
    }
  }

  lemma OneMoveIsFinal(s: Store, m: Move, c: Candidate)
    requires Enabled(s, m) && Closed(s, c)
    ensures c in Apply(s, m).rows && Apply(s, m).rows[c] == s.rows[c]
  {}

  // ----- counters -----

  function WithStatus(rows: map<Candidate, Row>, status: Status): set<Candidate> {
    set c | c in rows && rows[c].status == status
  }

  ghost predicate Tallied(s: Store) {
    forall status {:trigger s.tally.Of(status)} ::
      HasCounter(status) ==> s.tally.Of(status) == |WithStatus(s.rows, status)|
  }

  /** What a task may still write is a final status, and it worked from an admissible number of attempts. */
  ghost predicate TasksSane(s: Store) {
    && (forall t :: t in s.tasks ==>
          t.candidate in s.rows && t.attempts < MAX_TRANSIENT_ATTEMPTS
          && (t.verdict.Some? ==>
                && HasCounterOrWaits(t.verdict.value)
                && (!t.verdict.value.DiscoveredWaiting? ==> t.candidate in s.boards)))
    && (forall c :: c in s.rows ==> s.rows[c].attempts < MAX_TRANSIENT_ATTEMPTS)
  }

  /** Whatever was classified as a board, new or old, has a row in the board table. */
  ghost predicate Truthful(s: Store) {
    forall c :: c in s.rows && HasCounter(s.rows[c].status) && !s.rows[c].status.Unresolved? ==> c in s.boards
  }

  ghost predicate Sound(s: Store) {
    Tallied(s) && TasksSane(s) && Truthful(s)
  }

  lemma RowMoves(s: Store, next: Store, c: Candidate, row: Row)
    requires Tallied(s) && next.rows == s.rows[c := row] && (c in s.rows ==> s.rows[c].status.Open())
    requires next.tally == s.tally.Plus(row.status)
    ensures Tallied(next)
  {
    forall status {:trigger next.tally.Of(status)} | HasCounter(status)
      ensures next.tally.Of(status) == |WithStatus(next.rows, status)|
    {
      assert s.tally.Of(status) == |WithStatus(s.rows, status)|;
      if row.status == status {
        assert WithStatus(next.rows, status) == WithStatus(s.rows, status) + {c};
      } else {
        assert WithStatus(next.rows, status) == WithStatus(s.rows, status);
      }
    }
  }

  lemma ClassifiedTallied(s: Store, c: Candidate, status: Status)
    requires Tallied(s)
    ensures Tallied(Classified(s, c, status))
  {
    if c in s.rows && s.rows[c].status.Open() { RowMoves(s, Classified(s, c, status), c, s.rows[c].(status := status)); }
  }

  lemma TriedAgainTallied(s: Store, c: Candidate, attempts: nat, now: int)
    requires Tallied(s)
    ensures Tallied(TriedAgainLater(s, c, attempts, now))
  {
    if attempts >= MAX_TRANSIENT_ATTEMPTS {
      ClassifiedTallied(s, c, Unresolved);
    } else if c in s.rows && s.rows[c].status.Open() {
      RowMoves(s, Retried(s, c, attempts, now), c, Row(Retry, attempts, now + RetryDelay(attempts)));
    }
  }

  lemma MoveKeepsTallied(s: Store, m: Move)
    requires Tallied(s) && Enabled(s, m)
    ensures Tallied(Apply(s, m))
  {
    match m
    case Queue(c) => RowMoves(s, Apply(s, m), c, Row(Pending, 0, 0));
    case WriteOutcome(k) => ClassifiedTallied(Dismissed(s, k), s.tasks[k].candidate, s.tasks[k].verdict.value);
    case MarkTransient(k, now) =>
      var c := s.tasks[k].candidate;
      TriedAgainTallied(Noted(Dismissed(s, k), c), c, s.tasks[k].attempts + 1, now);
    case _ =>
  }

  lemma MoveKeepsTasksSane(s: Store, m: Move)
    requires TasksSane(s) && Enabled(s, m)
    ensures TasksSane(Apply(s, m))
  {
    if m.WriteOutcome? || m.MarkTransient? {
      var t := s.tasks[m.task];
      assert t in s.tasks;
      DismissedIsSane(s, m.task);
      hide TasksSane, Dismissed;
      if m.WriteOutcome? {
        ClassifiedIsSane(Dismissed(s, m.task), t.candidate, t.verdict.value);
      } else {
        TriedAgainIsSane(Dismissed(s, m.task), t.candidate, t.attempts + 1, m.now);
      }
    }
  }

  lemma DismissedIsSane(s: Store, k: nat)
    requires TasksSane(s) && k < |s.tasks|
    ensures TasksSane(Dismissed(s, k)) && Dismissed(s, k).rows == s.rows
  {
    assert forall t :: t in Dismissed(s, k).tasks ==> t in s.tasks;
  }

  lemma ClassifiedIsSane(s: Store, c: Candidate, status: Status)
    requires TasksSane(s)
    ensures TasksSane(Classified(s, c, status))
  {}

  lemma TriedAgainIsSane(s: Store, c: Candidate, attempts: nat, now: int)
    requires TasksSane(s)
    ensures TasksSane(TriedAgainLater(Noted(s, c), c, attempts, now))
  {}

  lemma MoveKeepsTruthful(s: Store, m: Move)
    requires TasksSane(s) && Truthful(s) && Enabled(s, m)
    ensures Truthful(Apply(s, m))
  {}

  lemma {:induction false} RunKeepsSound(s: Store, moves: seq<Move>)
    requires Sound(s) && CanRun(s, moves)
    ensures Sound(After(s, moves))
    decreases |moves|
  {
    if moves != [] {
      MoveKeepsTallied(s, moves[0]);
      MoveKeepsTasksSane(s, moves[0]);
      MoveKeepsTruthful(s, moves[0]);
      hide Tallied, TasksSane, Truthful, Apply, Enabled;
      RunKeepsSound(Apply(s, moves[0]), moves[1..]);
    }
  }

  function Waiting(rows: map<Candidate, Row>): set<Candidate> {
    set c | c in rows && (rows[c].status.Open() || rows[c].status.DiscoveredWaiting?)
  }

  /** Waiting rows first, then the classified ones, status by status. */
  function Shelf(s: Status): nat {
    match s
    case Active => 1
    case Existing => 2
    case Retired => 3
    case Parked => 4
    case Unresolved => 5
    case _ => 0
  }

  function UpToShelf(rows: map<Candidate, Row>, n: nat): set<Candidate> {
    set c | c in rows && Shelf(rows[c].status) <= n
  }

  lemma OneMoreShelf(rows: map<Candidate, Row>, s: Status)
    requires Shelf(s) > 0
    ensures |UpToShelf(rows, Shelf(s))| == |UpToShelf(rows, Shelf(s) - 1)| + |WithStatus(rows, s)|
  {
    var below, here := UpToShelf(rows, Shelf(s) - 1), WithStatus(rows, s);
    forall c | c in UpToShelf(rows, Shelf(s)) ensures c in below + here {}
    assert UpToShelf(rows, Shelf(s)) == below + here;
    assert below !! here;
  }

  lemma SplitRows(rows: map<Candidate, Row>)
    ensures |rows| == |WithStatus(rows, Active)| + |WithStatus(rows, Existing)| + |WithStatus(rows, Retired)|
                      + |WithStatus(rows, Parked)| + |WithStatus(rows, Unresolved)| + |Waiting(rows)|
  {
    assert Waiting(rows) == UpToShelf(rows, 0);
    assert UpToShelf(rows, 5) == rows.Keys;
    hide WithStatus, Waiting, UpToShelf;
    OneMoreShelf(rows, Active);
    OneMoreShelf(rows, Existing);
    OneMoreShelf(rows, Retired);
    OneMoreShelf(rows, Parked);
    OneMoreShelf(rows, Unresolved);
  }

  /** After any run from an empty table: the counters are the numbers of rows with their status, counters and waiting
      rows together are all rows, and a row classified as a board has its board. */
  lemma CountersAddUp(moves: seq<Move>)
    requires CanRun(EMPTY, moves)
    ensures var s := After(EMPTY, moves);
      && Tallied(s) && Truthful(s)
      && |s.rows| == s.tally.created + s.tally.existing + s.tally.retired + s.tally.parked + s.tally.unresolved
                     + |Waiting(s.rows)|
  {
    assert Tallied(EMPTY) by {
      forall status | HasCounter(status) ensures |WithStatus(EMPTY.rows, status)| == 0 {
        assert WithStatus(EMPTY.rows, status) == {};
      }
    }
    RunKeepsSound(EMPTY, moves);
    var s := After(EMPTY, moves);
    SplitRows(s.rows);
    assert s.tally.Of(Active) == s.tally.created && s.tally.Of(Existing) == s.tally.existing
           && s.tally.Of(Retired) == s.tally.retired && s.tally.Of(Parked) == s.tally.parked
           && s.tally.Of(Unresolved) == s.tally.unresolved;
  }

  // ----- what tasks decide and write -----

  /** The waits between attempts, in minutes: 1, 5, 15, 60 and 180, and 360 from the sixth on. */
  lemma RetryDelays()
    ensures RetryDelay(1) == 60_000 && RetryDelay(2) == 300_000 && RetryDelay(3) == 900_000
    ensures RetryDelay(4) == 3_600_000 && RetryDelay(5) == 10_800_000
    ensures forall attempts :: attempts >= 6 ==> RetryDelay(attempts) == 21_600_000
    ensures forall attempts :: attempts <= 1 ==> RetryDelay(attempts) == 60_000
  {}

  /** A known board makes its candidate existing, or retired if the board is; a board that was validated is created and
      makes it active, or parked when the validation failed; a platform that waits for its collector makes it wait. */
  lemma Decisions(s: Store, m: Move)
    requires Enabled(s, m) && (m.FindExisting? || m.Catalogue? || m.RecordBoard?)
    ensures var next := Apply(s, m);
            var c := s.tasks[m.task].candidate;
      && next.rows == s.rows && next.tally == s.tally && |next.tasks| == |s.tasks|
      && (forall k :: 0 <= k < |s.tasks| && k != m.task ==> next.tasks[k] == s.tasks[k])
      && next.tasks[m.task].verdict ==
           (if m.Catalogue? then Some(DiscoveredWaiting)
            else if c in s.boards then (if s.boards[c].Live? then Some(Existing) else Some(Retired))
            else if m.RecordBoard? && m.success then Some(Active) else Some(Parked))
      && next.boards == if m.RecordBoard? && c !in s.boards then s.boards[c := Live] else s.boards
  {}

  /** A verdict is written to an open row, and its counter, if it has one, is raised by one; a classified row, and its
      counters, stay as they are. The task is done either way. */
  lemma VerdictsAreWritten(s: Store, k: nat)
    requires Enabled(s, WriteOutcome(k))
    ensures var next, c, verdict := Apply(s, WriteOutcome(k)), s.tasks[k].candidate, s.tasks[k].verdict.value;
            var writes := c in s.rows && (s.rows[c].status.Pending? || s.rows[c].status.Retry?);
      && next.tasks == s.tasks[..k] + s.tasks[k+1..]
      && (if writes then next.rows == s.rows[c := Row(verdict, s.rows[c].attempts, s.rows[c].nextAttemptAt)] else next.rows == s.rows)
      && (if !writes then next.tally == s.tally
          else match verdict
               case Active => next.tally == s.tally.(created := s.tally.created + 1)
               case Existing => next.tally == s.tally.(existing := s.tally.existing + 1)
               case Retired => next.tally == s.tally.(retired := s.tally.retired + 1)
               case Parked => next.tally == s.tally.(parked := s.tally.parked + 1)
               case Unresolved => next.tally == s.tally.(unresolved := s.tally.unresolved + 1)
               case _ => next.tally == s.tally)
  {}

  /** A transient answer sets an open row to the attempt after the one the task read, with its next time, and gives it up
      on the sixth. */
  lemma TransientAnswers(s: Store, k: nat, now: int)
    requires Enabled(s, MarkTransient(k, now))
    requires var c := s.tasks[k].candidate; c in s.rows && s.rows[c].status.Open()
    ensures var next, c, n := Apply(s, MarkTransient(k, now)), s.tasks[k].candidate, s.tasks[k].attempts + 1;
      && next.tasks == s.tasks[..k] + s.tasks[k+1..]
      && next.rows == s.rows[c := if n >= 6 then Row(Unresolved, s.rows[c].attempts, s.rows[c].nextAttemptAt)
                                  else Row(Retry, n, now + RetryDelay(n))]
      && next.tally == if n >= 6 then s.tally.(unresolved := s.tally.unresolved + 1) else s.tally
  {}

  // ----- the lifecycle classifies as the audit assumes -----

  function Statuses(rows: map<Candidate, Row>): map<Candidate, Status> {
    map c | c in rows :: rows[c].status
  }

  predicate IsClassification(a: map<Candidate, Status>, b: map<Candidate, Status>, c: Candidate, status: Status) {
    c in a && a[c].Open() && !status.Pending? && b == a[c := status]
  }

  predicate IsInsertion(a: map<Candidate, Status>, b: map<Candidate, Status>, c: Candidate) {
    c !in a && b == a[c := Pending]
  }

  /** To the crawl's transition system each of these moves is an insertion, a `Classify` step, or nothing. */
  lemma MovesClassify(s: Store, m: Move)
    requires Enabled(s, m) && TasksSane(s)
    ensures var a, b := Statuses(s.rows), Statuses(Apply(s, m).rows);
      a == b || (exists c :: IsInsertion(a, b, c)) || (exists c, status :: IsClassification(a, b, c, status))
  {
    var a, b := Statuses(s.rows), Statuses(Apply(s, m).rows);
    if m.Queue? {
      assert b == a[m.candidate := Pending];
      assert IsInsertion(a, b, m.candidate);
    } else if m.WriteOutcome? || m.MarkTransient? {
      var t := s.tasks[m.task];
      assert t in s.tasks;
      if s.rows[t.candidate].status.Open() {
        assert b == a[t.candidate := b[t.candidate]];
        assert IsClassification(a, b, t.candidate, b[t.candidate]);
      }
    }
  }
}

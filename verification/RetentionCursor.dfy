/**
 * The keyset cursor both retention workers use: largest crawls first, ties by id, a cursor that is saved before
 * each attempt, and a fresh pass once nothing is left after it.
 */
module RetentionCursor {
  import opened Basics

  const SELECTION_LIMIT: nat := 1000
  const HELD_LIMIT: nat := 50

  /** A batch as the cursor sees it; a batch whose count changes is a different key. */
  datatype Batch = Batch(rawObservationCount: nat, id: nat)

  type Cursor = Option<Batch>

  /** Largest first, then by id. */
  predicate Before(a: Batch, b: Batch) {
    a.rawObservationCount > b.rawObservationCount || (a.rawObservationCount == b.rawObservationCount && a.id < b.id)
  }

  predicate IsAfter(b: Batch, cursor: Cursor) {
    cursor.None? || Before(cursor.value, b)
  }

  predicate Ascending(s: seq<Batch>) {
    forall i, j :: 0 <= i < j < |s| ==> Before(s[i], s[j])
  }

  /** What the database returns: the first batches after the cursor among the eligible ones, in order. */
  ghost predicate IsSelection(selection: seq<Batch>, eligible: set<Batch>, cursor: Cursor) {
    && Ascending(selection) && |selection| <= SELECTION_LIMIT
    && (forall b :: b in selection ==> b in eligible && IsAfter(b, cursor))
    && (forall b :: b in eligible && IsAfter(b, cursor) && b !in selection ==>
          |selection| == SELECTION_LIMIT && forall c :: c in selection ==> Before(c, b))
  }

  // ----- one run of a worker -----

  datatype Outcome = Retired | Held | Exits // the process ends while it works on the batch
  datatype End = Finished | NotReady | Exited

  /** The state file. */
  datatype State = State(cursor: Cursor, retired: nat, held: seq<Batch>)

  function LastHeld(held: seq<Batch>): seq<Batch> {
    if |held| > HELD_LIMIT - 1 then held[|held| - (HELD_LIMIT - 1)..] else held
  }

  function CursorAfter(before: Cursor, selection: seq<Batch>, attempted: seq<Batch>, end: End): Cursor {
    if attempted != [] then Some(attempted[|attempted|-1])
    else if selection == [] && end.Finished? then None
    else before
  }

  function Counted(state: State, batch: Batch, outcome: Outcome): State {
    match outcome
    case Retired => state.(retired := state.retired + 1)
    case Held => state.(held := LastHeld(state.held) + [batch])
    case Exits => state
  }

  /** What working on the batches leaves in memory: the cursor on the last one, its outcome counted or noted. */
  function Recorded(state: State, work: Batch -> Outcome, batches: seq<Batch>): State {
    if batches == [] then state
    else
      Counted(Recorded(state, work, batches[..|batches|-1]).(cursor := Some(batches[|batches|-1])),
              batches[|batches|-1], work(batches[|batches|-1]))
  }

  lemma RecordOne(state: State, work: Batch -> Outcome, batches: seq<Batch>, batch: Batch)
    ensures Recorded(state, work, batches + [batch])
            == Counted(Recorded(state, work, batches).(cursor := Some(batch)), batch, work(batch))
  {
    assert (batches + [batch])[..|batches|] == batches;
  }

  /** The part of a run that reaches the state file: a run that ends early saved last before its last attempt. */
  function SavedPart(attempted: seq<Batch>, end: End): seq<Batch> {
    if end.Finished? || attempted == [] then attempted else attempted[..|attempted|-1]
  }

  /** The list of held batches in the state file stays short. */
  lemma {:induction false} HeldIsBounded(state: State, work: Batch -> Outcome, batches: seq<Batch>)
    requires |state.held| <= HELD_LIMIT
    ensures |Recorded(state, work, batches).held| <= HELD_LIMIT
  {
    if batches != [] { HeldIsBounded(state, work, batches[..|batches|-1]); }
  }

  function RetiredIn(work: Batch -> Outcome, batches: seq<Batch>): nat {
    |set k | 0 <= k < |batches| && work(batches[k]).Retired?|
  }

  /** The batches that were held back, in order. */
  function HeldIn(work: Batch -> Outcome, batches: seq<Batch>): seq<Batch> {
    if batches == [] then []
    else HeldIn(work, batches[..|batches|-1]) + if work(batches[|batches|-1]).Held? then [batches[|batches|-1]] else []
  }

  function LastFifty(s: seq<Batch>): seq<Batch> {
    if |s| > 50 then s[|s|-50..] else s
  }

  lemma LastFiftyPush(s: seq<Batch>, b: Batch)
    ensures LastHeld(s) + [b] == LastFifty(s + [b])
    ensures LastHeld(LastFifty(s)) + [b] == LastFifty(s + [b])
  {}

  lemma RetiredPush(work: Batch -> Outcome, front: seq<Batch>, last: Batch)
    ensures RetiredIn(work, front + [last]) == RetiredIn(work, front) + if work(last).Retired? then 1 else 0
  {
    var s := front + [last];
    var before := set k | 0 <= k < |front| && work(front[k]).Retired?;
    assert forall k :: 0 <= k < |front| ==> s[k] == front[k];
    assert (set k | 0 <= k < |s| && work(s[k]).Retired?) == if work(last).Retired? then before + {|front|} else before;
  }

  lemma HeldPush(work: Batch -> Outcome, front: seq<Batch>, last: Batch)
    ensures HeldIn(work, front + [last]) == if work(last).Held? then HeldIn(work, front) + [last] else HeldIn(work, front)
  {
    assert (front + [last])[..|front|] == front;
  }

  /** The list of held batches after one more. */
  lemma HeldOneMore(before: seq<Batch>, held: seq<Batch>, last: Batch)
    ensures LastHeld(if held == [] then before else LastFifty(before + held)) + [last] == LastFifty(before + (held + [last]))
  {
    assert before + (held + [last]) == (before + held) + [last];
    if held == [] { assert before + held == before; }
    LastFiftyPush(before + held, last);
  }

  lemma NothingRecorded(work: Batch -> Outcome)
    ensures RetiredIn(work, []) == 0 && HeldIn(work, []) == []
  {
    var none: seq<Batch> := [];
    assert (set k | 0 <= k < |none| && work(none[k]).Retired?) == {};
  }

  /** The attempts count the batches they retired and list the last fifty they held. */
  lemma {:induction false} RecordedCounts(state: State, work: Batch -> Outcome, batches: seq<Batch>)
    ensures Recorded(state, work, batches).retired == state.retired + RetiredIn(work, batches)
    ensures Recorded(state, work, batches).held ==
      if HeldIn(work, batches) == [] then state.held else LastFifty(state.held + HeldIn(work, batches))
  {
    if batches == [] {
      NothingRecorded(work);
    } else {
      var front, last := batches[..|batches|-1], batches[|batches|-1];
      assert batches == front + [last];
      RecordedCounts(state, work, front);
      RecordOne(state, work, front, last);
      RetiredPush(work, front, last);
      HeldPush(work, front, last);
      HeldOneMore(state.held, HeldIn(work, front), last);
      hide Recorded, RetiredIn, HeldIn, LastFifty, LastHeld;
    }
  }

  /** What a run that attempted `attempted` leaves in the state file: the cursor on the last batch attempted, or back at
      the beginning after a selection of none, and the tallies of the attempts whose outcome was saved, which are all of
      a run that ended normally, and all but the last of one that did not. */
  ghost predicate Leaves(before: State, work: Batch -> Outcome, selection: seq<Batch>, attempted: seq<Batch>, end: End, after: State) {
    var settled := if end.Finished? || attempted == [] then attempted else attempted[..|attempted|-1];
    && after.cursor == (if attempted != [] then Some(attempted[|attempted|-1])
                        else if selection == [] && end.Finished? then None else before.cursor)
    && after.retired == before.retired + RetiredIn(work, settled)
    && after.held == (if HeldIn(work, settled) == [] then before.held else LastFifty(before.held + HeldIn(work, settled)))
    && (|before.held| <= 50 ==> |after.held| <= 50)
  }

  lemma SavedCounts(before: State, work: Batch -> Outcome, selection: seq<Batch>, attempted: seq<Batch>, end: End)
    ensures Leaves(before, work, selection, attempted, end, SavedState(before, work, selection, attempted, end))
  {
    RecordedCounts(before, work, SavedPart(attempted, end));
    if |before.held| <= HELD_LIMIT { HeldIsBounded(before, work, SavedPart(attempted, end)); }
    hide Recorded, RetiredIn, HeldIn, LastFifty;
  }

  /** What the state file holds once `k` attempts were begun. */
  function SavedAt(before: State, work: Batch -> Outcome, selection: seq<Batch>, k: nat): State
    requires k <= |selection|
  {
    if k == 0 then before else Recorded(before, work, selection[..k-1]).(cursor := Some(selection[k-1]))
  }

  /** What a finished run leaves in the state file. */
  function SavedState(before: State, work: Batch -> Outcome, selection: seq<Batch>, attempted: seq<Batch>, end: End): State {
    Recorded(before, work, SavedPart(attempted, end)).(cursor := CursorAfter(before.cursor, selection, attempted, end))
  }

  lemma EarlyEnd(before: State, work: Batch -> Outcome, selection: seq<Batch>, k: nat, end: End)
    requires k <= |selection| && !end.Finished?
    ensures SavedState(before, work, selection, selection[..k], end) == SavedAt(before, work, selection, k)
  {
    if k > 0 { assert selection[..k][..k-1] == selection[..k-1]; }
  }

  lemma {:induction false} CursorOfRecorded(before: State, work: Batch -> Outcome, batches: seq<Batch>)
    ensures Recorded(before, work, batches).cursor == if batches == [] then before.cursor else Some(batches[|batches|-1])
  {}

  /** A prefix of the selection, cut off for the reason `end` gives and no other. */
  ghost predicate Attempted(selection: seq<Batch>, inTime: nat -> bool, ready: nat -> bool, work: Batch -> Outcome,
                            attempted: seq<Batch>, end: End)
  {
    && attempted <= selection
    && (match end
        case Finished => attempted == selection || !inTime(|attempted|)
        case NotReady => |attempted| < |selection| && inTime(|attempted|) && !ready(|attempted|)
        case Exited => attempted != [] && work(attempted[|attempted|-1]).Exits?)
    && (forall k :: 0 <= k < |attempted| ==> inTime(k) && ready(k))
    && (forall k :: 0 <= k < |attempted| - (if end.Exited? then 1 else 0) ==> !work(attempted[k]).Exits?)
  }

  ghost predicate BegunAndSurvived(selection: seq<Batch>, inTime: nat -> bool, ready: nat -> bool, work: Batch -> Outcome, k: nat)
    requires k <= |selection|
  {
    forall j :: 0 <= j < k ==> inTime(j) && ready(j) && !work(selection[j]).Exits?
  }

  lemma NothingBegun(selection: seq<Batch>, inTime: nat -> bool, ready: nat -> bool, work: Batch -> Outcome)
    ensures BegunAndSurvived(selection, inTime, ready, work, 0)
  {}

  lemma AttemptSurvived(selection: seq<Batch>, inTime: nat -> bool, ready: nat -> bool, work: Batch -> Outcome, k: nat)
    requires k < |selection| && BegunAndSurvived(selection, inTime, ready, work, k)
    requires inTime(k) && ready(k) && !work(selection[k]).Exits?
    ensures BegunAndSurvived(selection, inTime, ready, work, k + 1)
  {}

  lemma AttemptsMade(selection: seq<Batch>, inTime: nat -> bool, ready: nat -> bool, work: Batch -> Outcome, k: nat, end: End)
    requires k <= |selection| && BegunAndSurvived(selection, inTime, ready, work, k)
    requires match end
      case Finished => k == |selection| || !inTime(k)
      case NotReady => k < |selection| && inTime(k) && !ready(k)
      case Exited => k < |selection| && inTime(k) && ready(k) && work(selection[k]).Exits?
    ensures Attempted(selection, inTime, ready, work, if end.Exited? then selection[..k+1] else selection[..k], end)
  {}

  class RetentionWorker {
    var saved: State // survives the process

    constructor ()
      ensures saved == State(None, 0, [])
    {
      saved := State(None, 0, []);
    }

    /** One run over the batches selected at its start. `inTime(k)` and `ready(k)` say whether the time budget and the
        mounts allow attempt `k`. The attempts are a prefix of the selection, whatever their outcomes are; the saved
        cursor ends on the last one attempted, and the saved tallies are those of every attempt that was followed by
        another save. */
    method RunOnce(selection: seq<Batch>, inTime: nat -> bool, ready: nat -> bool, work: Batch -> Outcome)
      returns (attempted: seq<Batch>, end: End)
      modifies this
      ensures Attempted(selection, inTime, ready, work, attempted, end)
      ensures saved == SavedState(old(saved), work, selection, attempted, end)
      ensures Leaves(old(saved), work, selection, attempted, end, saved)
    {
      var state, k := saved, 0;
      assert selection[..0] == [];
      assert state == Recorded(old(saved), work, selection[..0]) && saved == SavedAt(old(saved), work, selection, 0);
      hide *;
      NothingBegun(selection, inTime, ready, work);
      end := Finished;
      while k < |selection| && inTime(k)
        invariant k <= |selection|
        invariant state == Recorded(old(saved), work, selection[..k]) && saved == SavedAt(old(saved), work, selection, k)
        invariant BegunAndSurvived(selection, inTime, ready, work, k)
      {
        if !ready(k) {
          EarlyEnd(old(saved), work, selection, k, NotReady);
          AttemptsMade(selection, inTime, ready, work, k, NotReady);
          SavedCounts(old(saved), work, selection, selection[..k], NotReady);
          return selection[..k], NotReady;
        }
        var batch := selection[k];
        assert selection[..k+1] == selection[..k] + [batch];
        RecordOne(old(saved), work, selection[..k], batch);
        // The cursor is durable before the work begins, so an interruption does not bring the batch back at once.
        state := state.(cursor := Some(batch));
        saved := state;
        SavedAtNext(old(saved), work, selection, k);
        var outcome := work(batch);
        if outcome.Exits? {
          EarlyEnd(old(saved), work, selection, k + 1, Exited);
          AttemptsMade(selection, inTime, ready, work, k, Exited);
          SavedCounts(old(saved), work, selection, selection[..k+1], Exited);
          return selection[..k+1], Exited;
        }
        state := Counted(state, batch, outcome);
        AttemptSurvived(selection, inTime, ready, work, k);
        k := k + 1;
      }
      attempted := selection[..k];
      NormalEnd(old(saved), work, selection, k);
      AttemptsMade(selection, inTime, ready, work, k, Finished);
      SavedCounts(old(saved), work, selection, attempted, Finished);
      if selection == [] { state := state.(cursor := None); }
      saved := state;
    }
  }

  lemma SavedAtNext(before: State, work: Batch -> Outcome, selection: seq<Batch>, k: nat)
    requires k < |selection|
    ensures SavedAt(before, work, selection, k + 1) == Recorded(before, work, selection[..k]).(cursor := Some(selection[k]))
  {}

  lemma NormalEnd(before: State, work: Batch -> Outcome, selection: seq<Batch>, k: nat)
    requires k <= |selection|
    ensures var state := Recorded(before, work, selection[..k]);
      SavedState(before, work, selection, selection[..k], Finished) == if selection == [] then state.(cursor := None) else state
  {
    CursorOfRecorded(before, work, selection[..k]);
  }

  // ----- a whole pass -----

  /** What one run did. */
  datatype Run = Run(eligible: set<Batch>, selection: seq<Batch>, before: Cursor, attempted: seq<Batch>, end: End)

  ghost predicate IsRun(r: Run) {
    && IsSelection(r.selection, r.eligible, r.before)
    && r.attempted <= r.selection
  }

  function After(r: Run): Cursor {
    CursorAfter(r.before, r.selection, r.attempted, r.end)
  }

  /** Consecutive runs of one pass: it began with no cursor, and none of them found nothing left. */
  ghost predicate IsPass(runs: seq<Run>) {
    && (forall k :: 0 <= k < |runs| ==> IsRun(runs[k]) && runs[k].selection != [])
    && (runs != [] ==> runs[0].before.None?)
    && (forall k :: 0 <= k < |runs| - 1 ==> runs[k+1].before == After(runs[k]))
  }

  function CursorOf(runs: seq<Run>): Cursor {
    if runs == [] then None else After(runs[|runs|-1])
  }

  function Attempts(runs: seq<Run>): seq<Batch> {
    if runs == [] then [] else Attempts(runs[..|runs|-1]) + runs[|runs|-1].attempted
  }

  lemma BeforeIsAnOrder(a: Batch, b: Batch, c: Batch)
    ensures !Before(a, a)
    ensures Before(a, b) && Before(b, c) ==> Before(a, c)
    ensures Before(a, b) || Before(b, a) || a == b
  {}

  lemma ShorterPass(runs: seq<Run>)
    requires IsPass(runs) && runs != []
    ensures IsPass(runs[..|runs|-1]) && runs[|runs|-1].before == CursorOf(runs[..|runs|-1])
  {
    var front := runs[..|runs|-1];
    forall k | 0 <= k < |front| ensures IsRun(front[k]) && front[k].selection != [] { assert front[k] == runs[k]; }
  }

  /** Every attempt of a pass is at or before its cursor, which is the last of them. */
  lemma {:induction false} AttemptsReachCursor(runs: seq<Run>)
    requires IsPass(runs)
    ensures CursorOf(runs).None? <==> Attempts(runs) == []
    ensures Attempts(runs) != [] ==> CursorOf(runs).value == Attempts(runs)[|Attempts(runs)|-1]
    decreases |runs|
  {
    if runs != [] {
      var front, r := runs[..|runs|-1], runs[|runs|-1];
      ShorterPass(runs);
      AttemptsReachCursor(front);
      assert r.selection != [];
      assert CursorOf(runs) == if r.attempted != [] then Some(r.attempted[|r.attempted|-1]) else CursorOf(front);
      assert Attempts(runs) == Attempts(front) + r.attempted;
      hide *;
    }
  }

  /** The cursor of a pass moves strictly forward: all its attempts, over all its runs, are in strictly ascending order,
      so no batch is attempted twice. */
  lemma {:induction false} PassMovesForward(runs: seq<Run>)
    requires IsPass(runs)
    ensures Ascending(Attempts(runs))
    ensures forall i, j :: 0 <= i < j < |Attempts(runs)| ==> Attempts(runs)[i] != Attempts(runs)[j]
    decreases |runs|
  {
    if runs != [] {
      var front, r := runs[..|runs|-1], runs[|runs|-1];
      ShorterPass(runs);
      PassMovesForward(front);
      AttemptsReachCursor(front);
      assert forall b :: b in r.attempted ==> b in r.selection;
      AscendingJoin(Attempts(front), r.attempted, CursorOf(front));
    }
  }

  lemma AscendingJoin(a: seq<Batch>, b: seq<Batch>, cursor: Cursor)
    requires Ascending(a) && Ascending(b)
    requires a != [] ==> cursor == Some(a[|a|-1])
    requires forall x :: x in b ==> IsAfter(x, cursor)
    ensures Ascending(a + b)
  {
    var s := a + b;
    forall i, j | 0 <= i < j < |s| ensures Before(s[i], s[j]) {
      if i < |a| <= j {
        assert b[j - |a|] in b;
        if i < |a| - 1 { BeforeIsAnOrder(a[i], a[|a|-1], b[j - |a|]); }
      }
    }
  }

  /** A batch the cursor has passed while it was eligible was attempted: held, failing and crashing batches before it
      make no difference. */
  lemma {:induction false} PassedMeansAttempted(runs: seq<Run>, b: Batch)
    requires IsPass(runs) && forall k :: 0 <= k < |runs| ==> b in runs[k].eligible
    requires !IsAfter(b, CursorOf(runs))
    ensures b in Attempts(runs)
    decreases |runs|
  {
    var front, r := runs[..|runs|-1], runs[|runs|-1];
    ShorterPass(runs);
    if IsAfter(b, r.before) {
      RunReaches(r, b);
    } else {
      forall k | 0 <= k < |front| ensures b in front[k].eligible { assert front[k] == runs[k]; }
      PassedMeansAttempted(front, b);
    }
  }

  lemma RunReaches(r: Run, b: Batch)
    requires IsRun(r) && r.selection != [] && b in r.eligible && IsAfter(b, r.before) && !IsAfter(b, After(r))
    ensures b in r.attempted
  {
    var last := r.attempted[|r.attempted|-1];
    assert last == r.selection[|r.attempted|-1];
    assert last in r.selection;
    BeforeIsAnOrder(last, b, last);
    assert b in r.selection;
    var k :| 0 <= k < |r.selection| && r.selection[k] == b;
    assert forall j :: |r.attempted| <= j < |r.selection| ==> Before(last, r.selection[j]);
    assert r.attempted[k] == b;
  }

  /** When a run finds nothing after the cursor, the pass is over, the next one starts from the beginning, and every
      batch that stayed eligible and unchanged throughout was attempted in it. */
  lemma {:induction false} NoBatchStarves(runs: seq<Run>, last: Run, b: Batch)
    requires IsPass(runs) && IsRun(last) && last.before == CursorOf(runs) && last.selection == [] && last.end.Finished?
    requires (forall k :: 0 <= k < |runs| ==> b in runs[k].eligible) && b in last.eligible
    ensures b in Attempts(runs)
    ensures After(last).None?
  {
    assert last.attempted == [] && b !in last.selection;
    assert !IsAfter(b, last.before);
    PassedMeansAttempted(runs, b);
  }

  /** A run that the mounts or the disk space stop does not pass the batch it was about to attempt: that batch is
      still after the cursor, which has not moved at all when it was the first. */
  lemma NotReadyDoesNotPass(r: Run)
    requires IsRun(r) && r.end.NotReady? && |r.attempted| < |r.selection|
    ensures IsAfter(r.selection[|r.attempted|], After(r))
    ensures r.attempted == [] ==> After(r) == r.before
  {
    assert r.selection[|r.attempted|] in r.selection;
    if r.attempted != [] {
      assert r.attempted[|r.attempted|-1] == r.selection[|r.attempted|-1];
    }
  }

  /** A pass is finite: among finitely many batches it can make only so many attempts. */
  lemma {:induction false} PassIsBounded(runs: seq<Run>, all: set<Batch>)
    requires IsPass(runs) && forall k :: 0 <= k < |runs| ==> runs[k].eligible <= all && runs[k].attempted != []
    ensures |runs| <= |all|
  {
    PassMovesForward(runs);
    AttemptsCount(runs, all);
    DistinctFit(Attempts(runs), all);
  }

  lemma {:induction false} AttemptsCount(runs: seq<Run>, all: set<Batch>)
    requires forall k :: 0 <= k < |runs| ==>
      IsRun(runs[k]) && runs[k].eligible <= all && runs[k].attempted != []
    ensures |runs| <= |Attempts(runs)| && forall b :: b in Attempts(runs) ==> b in all
  {
    if runs != [] {
      var r := runs[|runs|-1];
      AttemptsCount(runs[..|runs|-1], all);
      forall b | b in r.attempted ensures b in all { assert b in r.selection; }
    }
  }

  lemma {:induction false} DistinctFit(s: seq<Batch>, all: set<Batch>)
    requires (forall i, j :: 0 <= i < j < |s| ==> s[i] != s[j]) && forall b :: b in s ==> b in all
    ensures |s| <= |all|
  {
    if s != [] {
      var front, last := s[..|s|-1], s[|s|-1];
      assert s == front + [last];
      assert last !in front;
      DistinctFit(front, all - {last});
    }
  }
}

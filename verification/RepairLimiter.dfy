/**
 * The watchdog's limit on its own repairs: a ledger of time stamps, written before each repair and pruned to the last
 * six hours. The clock never goes back, runs follow one another, and a run may die anywhere.
 */
module RepairLimiter {
  import opened Basics

  const WINDOW: int := 6 * 3_600_000
  const MAX_PER_WINDOW: nat := 3

  datatype Action = ReopenCircuit | ResumeBatches

  type Ledger = map<Action, seq<int>>

  /** A repair that was noted, and when it was carried out, if it was. */
  datatype Repair = Repair(action: Action, noted: int, executed: Option<int>)

  function Stamps(ledger: Ledger, a: Action): seq<int> {
    if a in ledger then ledger[a] else []
  }

  function Later(s: seq<int>, cutoff: int): seq<int> {
    if s == [] then [] else Later(s[..|s|-1], cutoff) + if s[|s|-1] > cutoff then [s[|s|-1]] else []
  }

  function RecentRepairs(ledger: Ledger, a: Action, now: int): nat {
    |Later(Stamps(ledger, a), now - WINDOW)|
  }

  // ----- histories -----

  function Notes(h: seq<Repair>, a: Action): seq<int> {
    if h == [] then []
    else Notes(h[..|h|-1], a) + if h[|h|-1].action == a then [h[|h|-1].noted] else []
  }

  /** How many stamps lie after `lo` and no later than `hi`. */
  function CountIn(s: seq<int>, lo: int, hi: int): nat {
    if s == [] then 0 else CountIn(s[..|s|-1], lo, hi) + if lo < s[|s|-1] <= hi then 1 else 0
  }

  function ExecutedIn(h: seq<Repair>, a: Action, lo: int, hi: int): nat {
    if h == [] then 0
    else
      var r := h[|h|-1];
      ExecutedIn(h[..|h|-1], a, lo, hi)
      + if r.action == a && r.executed.Some? && lo < r.executed.value <= hi then 1 else 0
  }

  predicate Ascending(s: seq<int>) {
    forall i, j :: 0 <= i < j < |s| ==> s[i] <= s[j]
  }

  /** Every fourth stamp is at least a window after the first. */
  predicate Spaced(s: seq<int>) {
    forall i :: 0 <= i < |s| - MAX_PER_WINDOW ==> s[i] + WINDOW <= s[i + MAX_PER_WINDOW]
  }

  predicate Lagging(h: seq<Repair>, lag: int) {
    forall k :: 0 <= k < |h| && h[k].executed.Some? ==> h[k].noted <= h[k].executed.value <= h[k].noted + lag
  }

  /** The ledger keeps the latest notes; what it has dropped is older than the window. */
  ghost predicate Kept(stamps: seq<int>, notes: seq<int>, now: int) {
    && |stamps| <= |notes| && stamps == notes[|notes| - |stamps|..]
    && (forall i :: 0 <= i < |notes| - |stamps| ==> notes[i] <= now - WINDOW)
  }

  ghost predicate OneConsistent(stamps: seq<int>, notes: seq<int>, now: int, torn: bool) {
    && Ascending(notes) && (forall k :: 0 <= k < |notes| ==> notes[k] <= now)
    && (!torn ==> Kept(stamps, notes, now) && Spaced(notes))
  }

  /** `torn` remembers that a ledger was lost to a write that never finished. */
  ghost predicate Consistent(ledger: Ledger, h: seq<Repair>, now: int, torn: bool) {
    forall a :: OneConsistent(Stamps(ledger, a), Notes(h, a), now, torn)
  }

  /** `l` is the part of `s` above the cutoff, and it is a suffix. */
  predicate IsPartAbove(s: seq<int>, l: seq<int>, cutoff: int) {
    && |l| <= |s| && l == s[|s| - |l|..]
    && (forall i :: 0 <= i < |s| - |l| ==> s[i] <= cutoff)
    && (forall i :: |s| - |l| <= i < |s| ==> s[i] > cutoff)
  }

  lemma {:induction false} LaterIsSuffix(s: seq<int>, cutoff: int)
    requires Ascending(s)
    ensures IsPartAbove(s, Later(s, cutoff), cutoff)
  {
    if s != [] {
      LaterIsSuffix(s[..|s|-1], cutoff);
      assert s == s[..|s|-1] + [s[|s|-1]];
      assert Later(s[..|s|-1], cutoff) + [] == Later(s[..|s|-1], cutoff);
      hide Later, IsPartAbove, Ascending;
      PartAbovePush(s[..|s|-1], Later(s[..|s|-1], cutoff), s[|s|-1], cutoff);
    }
  }

  lemma PartAbovePush(s: seq<int>, l: seq<int>, x: int, cutoff: int)
    requires Ascending(s + [x]) && IsPartAbove(s, l, cutoff)
    ensures IsPartAbove(s + [x], if x > cutoff then l + [x] else l, cutoff)
  {
    if x > cutoff { AbovePush(s, l, x, cutoff); } else { BelowPush(s, l, x, cutoff); }
  }

  lemma AbovePush(s: seq<int>, l: seq<int>, x: int, cutoff: int)
    requires IsPartAbove(s, l, cutoff) && x > cutoff
    ensures IsPartAbove(s + [x], l + [x], cutoff)
  {
    var all, k := s + [x], |s| - |l|;
    assert all[k..] == s[k..] + [x];
    assert forall i :: 0 <= i < |s| ==> all[i] == s[i];
  }

  lemma BelowPush(s: seq<int>, l: seq<int>, x: int, cutoff: int)
    requires Ascending(s + [x]) && IsPartAbove(s, l, cutoff) && x <= cutoff
    ensures IsPartAbove(s + [x], l, cutoff)
  {
    var all := s + [x];
    forall i | 0 <= i < |s| ensures s[i] <= x { assert all[i] == s[i] && all[|s|] == x; }
    hide Ascending;
    var last := if s == [] then x else s[|s|-1];
    assert last <= cutoff;
    assert |l| == 0 && all[|all|..] == [];
  }

  lemma NotesPush(h: seq<Repair>, r: Repair, a: Action)
    ensures Notes(h + [r], a) == if r.action == a then Notes(h, a) + [r.noted] else Notes(h, a)
  {
    assert (h + [r])[..|h|] == h;
  }

  /** Fewer than three recent stamps mean that the third last note is a window old. */
  lemma ThirdLastIsOld(stamps: seq<int>, notes: seq<int>, since: int, checkedAt: int)
    requires Kept(stamps, notes, since) && Ascending(notes) && since <= checkedAt
    requires |Later(stamps, checkedAt - WINDOW)| < MAX_PER_WINDOW <= |notes|
    ensures notes[|notes| - MAX_PER_WINDOW] <= checkedAt - WINDOW
  {
    var dropped := |notes| - |stamps|;
    SuffixAscending(notes, dropped);
    LaterIsSuffix(stamps, checkedAt - WINDOW);
    var k := |notes| - MAX_PER_WINDOW;
    if k >= dropped { assert stamps[k - dropped] == notes[k]; }
  }

  lemma SpacedPush(notes: seq<int>, x: int)
    requires Spaced(notes) && (|notes| >= MAX_PER_WINDOW ==> notes[|notes| - MAX_PER_WINDOW] + WINDOW <= x)
    ensures Spaced(notes + [x])
  {
    var all := notes + [x];
    assert forall k :: 0 <= k < |notes| ==> all[k] == notes[k];
    forall k | 0 <= k < |all| - MAX_PER_WINDOW ensures all[k] + WINDOW <= all[k + MAX_PER_WINDOW] {
      assert all[k] == notes[k];
      if k + MAX_PER_WINDOW < |notes| { assert all[k + MAX_PER_WINDOW] == notes[k + MAX_PER_WINDOW]; }
    }
  }

  lemma SuffixAscending(s: seq<int>, k: nat)
    requires Ascending(s) && k <= |s|
    ensures Ascending(s[k..])
  {}

  lemma PrunedIsKept(stamps: seq<int>, notes: seq<int>, since: int, prunedAt: int, notedAt: int)
    requires Kept(stamps, notes, since) && Ascending(notes) && since <= prunedAt <= notedAt
    ensures Kept(Later(stamps, prunedAt - WINDOW) + [notedAt], notes + [notedAt], notedAt)
  {
    SuffixAscending(notes, |notes| - |stamps|);
    LaterIsSuffix(stamps, prunedAt - WINDOW);
    var kept := Later(stamps, prunedAt - WINDOW);
    assert kept == notes[|notes| - |kept|..];
    forall i | 0 <= i < |notes| - |kept| ensures notes[i] <= notedAt - WINDOW {
      if i >= |notes| - |stamps| { assert notes[i] == stamps[i - (|notes| - |stamps|)]; }
    }
  }

  // ----- the watchdog -----

  /** How one repair attempt goes on after its ledger has been read. */
  datatype Fate = DiesBeforeWrite | TearsLedger | DiesAfterNote | Executes(at: int)

  /** One attempt: the clock when the ledger is checked, when it is pruned and when the stamp is taken, and its fate. */
  datatype Attempt = Attempt(action: Action, checked: int, pruned: int, noted: int, fate: Fate)

  datatype Log = Log(ledger: Ledger, clock: int, history: seq<Repair>, torn: bool)

  /** The clock never goes back. */
  predicate InTime(l: Log, t: Attempt) {
    l.clock <= t.checked <= t.pruned <= t.noted && (t.fate.Executes? ==> t.noted <= t.fate.at)
  }

  predicate Allowed(l: Log, t: Attempt) {
    RecentRepairs(l.ledger, t.action, t.checked) < MAX_PER_WINDOW
  }

  function Attempted(l: Log, t: Attempt): Log {
    if !Allowed(l, t) || t.fate.DiesBeforeWrite? then l.(clock := t.checked)
    // The file is truncated before it is written: what is left cannot be read, and an unreadable ledger is empty.
    else if t.fate.TearsLedger? then l.(ledger := map[], clock := t.checked, torn := true)
    else
      Log(l.ledger[t.action := Later(Stamps(l.ledger, t.action), t.pruned - WINDOW) + [t.noted]],
          if t.fate.Executes? then t.fate.at else t.noted,
          l.history + [Repair(t.action, t.noted, if t.fate.Executes? then Some(t.fate.at) else None)],
          l.torn)
  }

  predicate CanRun(l: Log, attempts: seq<Attempt>)
    decreases |attempts|
  {
    attempts != [] ==> InTime(l, attempts[0]) && CanRun(Attempted(l, attempts[0]), attempts[1..])
  }

  function After(l: Log, attempts: seq<Attempt>): Log
    decreases |attempts|
  {
    if attempts == [] then l else After(Attempted(l, attempts[0]), attempts[1..])
  }

  function Fresh(now: int): Log {
    Log(map[], now, [], false)
  }

  class Watchdog {
    var ledger: Ledger
    var clock: int
    ghost var history: seq<Repair>
    ghost var torn: bool

    ghost function State(): Log
      reads this
    {
      Log(ledger, clock, history, torn)
    }

    constructor (now: int)
      ensures State() == Fresh(now)
    {
      ledger, clock, history, torn := map[], now, [], false;
    }

    /** Forget stamps older than the window, and note the repair before it is made. */
    method NoteRepair(a: Action, pruned: int, noted: int)
      modifies this`ledger, this`clock, this`history
      ensures ledger == old(ledger)[a := Later(Stamps(old(ledger), a), pruned - WINDOW) + [noted]]
      ensures clock == noted && history == old(history) + [Repair(a, noted, None)]
    {
      var kept: seq<int>, stamps, k := [], Stamps(ledger, a), 0;
      while k < |stamps|
        invariant k <= |stamps| && kept == Later(stamps[..k], pruned - WINDOW)
      {
        assert stamps[..k+1][..k] == stamps[..k];
        if stamps[k] > pruned - WINDOW { kept := kept + [stamps[k]]; }
        k := k + 1;
      }
      assert stamps[..k] == stamps;
      ledger := ledger[a := kept + [noted]];
      clock, history := noted, history + [Repair(a, noted, None)];
    }

    /** A repair is carried out only after it was noted, and only when fewer than three were in the last six hours. */
    method AttemptRepair(t: Attempt)
      modifies this
      ensures State() == Attempted(old(State()), t)
      ensures var recent := |Later(Stamps(old(ledger), t.action), t.checked - 21_600_000)|;
              if recent >= 3 || t.fate.DiesBeforeWrite? then ledger == old(ledger) && history == old(history)
              else if t.fate.TearsLedger? then ledger == map[] && history == old(history)
              else && ledger == old(ledger)[t.action := Later(Stamps(old(ledger), t.action), t.pruned - 21_600_000) + [t.noted]]
                   && history == old(history)
                        + [Repair(t.action, t.noted, if t.fate.Executes? then Some(t.fate.at) else None)]
    {
      clock := t.checked;
      if RecentRepairs(ledger, t.action, t.checked) >= MAX_PER_WINDOW || t.fate.DiesBeforeWrite? { return; }
      if t.fate.TearsLedger? {
        ledger, torn := map[], true;
        return;
      }
      NoteRepair(t.action, t.pruned, t.noted);
      if t.fate.Executes? {
        clock := t.fate.at;
        history := history[..|history|-1] + [history[|history|-1].(executed := Some(t.fate.at))];
      }
    }
  }

  /** What counts as recent: the stamps after the cutoff, all of them and no other, in their order. */
  lemma {:induction false} LaterMeans(s: seq<int>, cutoff: int, x: int)
    ensures multiset(Later(s, cutoff))[x] == if x > cutoff then multiset(s)[x] else 0
  {
    if s != [] {
      LaterMeans(s[..|s|-1], cutoff, x);
      assert s == s[..|s|-1] + [s[|s|-1]];
    }
  }

  // ----- every run -----

  lemma TimePasses(ledger: Ledger, h: seq<Repair>, now: int, later: int, torn: bool)
    requires Consistent(ledger, h, now, torn) && now <= later
    ensures Consistent(ledger, h, later, torn)
  {
    forall a ensures OneConsistent(Stamps(ledger, a), Notes(h, a), later, torn) {
      OneWaits(Stamps(ledger, a), Notes(h, a), now, torn, later);
    }
  }

  lemma NoteKeepsConsistent(ledger: Ledger, h: seq<Repair>, now: int, torn: bool, r: Repair, pruned: int)
    requires Consistent(ledger, h, now, torn) && now <= pruned <= r.noted
    requires RecentRepairs(ledger, r.action, now) < MAX_PER_WINDOW
    ensures Consistent(ledger[r.action := Later(Stamps(ledger, r.action), pruned - WINDOW) + [r.noted]], h + [r], r.noted, torn)
  {
    var next := ledger[r.action := Later(Stamps(ledger, r.action), pruned - WINDOW) + [r.noted]];
    forall b ensures OneConsistent(Stamps(next, b), Notes(h + [r], b), r.noted, torn) {
      NotesPush(h, r, b);
      assert OneConsistent(Stamps(ledger, b), Notes(h, b), now, torn);
      hide Notes, Later, OneConsistent;
      if r.action == b {
        OneNoted(Stamps(ledger, b), Notes(h, b), now, torn, pruned, r.noted);
      } else {
        OneWaits(Stamps(ledger, b), Notes(h, b), now, torn, r.noted);
      }
    }
  }

  lemma OneNoted(stamps: seq<int>, notes: seq<int>, now: int, torn: bool, pruned: int, noted: int)
    requires OneConsistent(stamps, notes, now, torn) && now <= pruned <= noted
    requires |Later(stamps, now - WINDOW)| < MAX_PER_WINDOW
    ensures OneConsistent(Later(stamps, pruned - WINDOW) + [noted], notes + [noted], noted, torn)
  {
    if !torn {
      if |notes| >= MAX_PER_WINDOW { ThirdLastIsOld(stamps, notes, now, now); }
      SpacedPush(notes, noted);
      PrunedIsKept(stamps, notes, now, pruned, noted);
    }
    hide Spaced, Later, Kept;
  }

  lemma OneWaits(stamps: seq<int>, notes: seq<int>, now: int, torn: bool, later: int)
    requires OneConsistent(stamps, notes, now, torn) && now <= later
    ensures OneConsistent(stamps, notes, later, torn)
  {}

  ghost predicate Sound(l: Log) {
    Consistent(l.ledger, l.history, l.clock, l.torn)
  }

  lemma AttemptKeepsSound(l: Log, t: Attempt)
    requires Sound(l) && InTime(l, t)
    ensures Sound(Attempted(l, t))
  {
    hide Consistent, Later, Stamps;
    TimePasses(l.ledger, l.history, l.clock, t.checked, l.torn);
    var next := Attempted(l, t);
    if Allowed(l, t) && !t.fate.DiesBeforeWrite? && !t.fate.TearsLedger? {
      var r := next.history[|l.history|];
      NoteKeepsConsistent(l.ledger, l.history, t.checked, l.torn, r, t.pruned);
      TimePasses(next.ledger, next.history, t.noted, next.clock, l.torn);
    } else if Allowed(l, t) && t.fate.TearsLedger? {
      TornIsConsistent(l.ledger, l.history, t.checked, l.torn);
    }
  }

  lemma TornIsConsistent(ledger: Ledger, h: seq<Repair>, now: int, torn: bool)
    requires Consistent(ledger, h, now, torn)
    ensures Consistent(map[], h, now, true)
  {
    forall a ensures OneConsistent(Stamps(map[], a), Notes(h, a), now, true) {
      assert OneConsistent(Stamps(ledger, a), Notes(h, a), now, torn);
    }
  }

  lemma {:induction false} RunKeepsSound(l: Log, attempts: seq<Attempt>)
    requires Sound(l) && CanRun(l, attempts)
    ensures Sound(After(l, attempts))
    decreases |attempts|
  {
    if attempts != [] {
      AttemptKeepsSound(l, attempts[0]);
      hide Sound, Attempted, InTime;
      RunKeepsSound(Attempted(l, attempts[0]), attempts[1..]);
    }
  }

  lemma FreshIsSound(now: int)
    ensures Sound(Fresh(now))
  {}

  // ----- windows -----

  lemma {:induction false} NoneAbove(s: seq<int>, lo: int, hi: int)
    requires forall i :: 0 <= i < |s| ==> s[i] <= lo
    ensures CountIn(s, lo, hi) == 0
  {
    if s != [] { NoneAbove(s[..|s|-1], lo, hi); }
  }

  lemma {:induction false} CountAtMost(s: seq<int>, lo: int, hi: int)
    ensures CountIn(s, lo, hi) <= |s|
  {
    if s != [] { CountAtMost(s[..|s|-1], lo, hi); }
  }

  lemma {:induction false} CountConcat(a: seq<int>, b: seq<int>, lo: int, hi: int)
    ensures CountIn(a + b, lo, hi) == CountIn(a, lo, hi) + CountIn(b, lo, hi)
  {
    if b == [] {
      assert a + b == a;
    } else {
      CountConcat(a, b[..|b|-1], lo, hi);
      assert (a + b)[..|a + b|-1] == a + b[..|b|-1];
    }
  }

  /** Spaced stamps put at most three into any half-open window. */
  lemma {:induction false} SpacedMeansThree(s: seq<int>, hi: int)
    requires Ascending(s) && Spaced(s)
    ensures CountIn(s, hi - WINDOW, hi) <= MAX_PER_WINDOW
  {
    if |s| <= MAX_PER_WINDOW {
      CountAtMost(s, hi - WINDOW, hi);
    } else if s[|s|-1] > hi {
      SpacedMeansThree(s[..|s|-1], hi);
    } else {
      var k := |s| - MAX_PER_WINDOW;
      assert s[k-1] + WINDOW <= s[|s|-1];
      NoneAbove(s[..k], hi - WINDOW, hi);
      CountAtMost(s[k..], hi - WINDOW, hi);
      assert s == s[..k] + s[k..];
      CountConcat(s[..k], s[k..], hi - WINDOW, hi);
    }
  }

  /** Over any run in which no ledger was torn, every half-open six-hour window holds at most three noted repairs of an
      action, although the ledger forgets. */
  lemma ThreeNotesPerWindow(now: int, attempts: seq<Attempt>, a: Action, hi: int)
    requires CanRun(Fresh(now), attempts) && !After(Fresh(now), attempts).torn
    ensures CountIn(Notes(After(Fresh(now), attempts).history, a), hi - 21_600_000, hi) <= 3
  {
    FreshIsSound(now);
    RunKeepsSound(Fresh(now), attempts);
    var l := After(Fresh(now), attempts);
    assert OneConsistent(Stamps(l.ledger, a), Notes(l.history, a), l.clock, l.torn);
    SpacedMeansThree(Notes(l.history, a), hi);
  }

  lemma {:induction false} ExecutedWereNoted(h: seq<Repair>, a: Action, lag: int, lo: int, hi: int)
    requires Lagging(h, lag)
    ensures ExecutedIn(h, a, lo + lag, hi) <= CountIn(Notes(h, a), lo, hi)
  {
    if h != [] {
      var front, r := h[..|h|-1], h[|h|-1];
      ExecutedWereNoted(front, a, lag, lo, hi);
      assert h == front + [r];
      NotesPush(front, r, a);
      assert (Notes(front, a) + [r.noted])[..|Notes(front, a)|] == Notes(front, a);
    }
  }

  /** Repairs carried out at most `lag` after they were noted: at most three in any window that much shorter. */
  lemma ThreeRepairsPerShorterWindow(now: int, attempts: seq<Attempt>, a: Action, lag: int, hi: int)
    requires CanRun(Fresh(now), attempts) && !After(Fresh(now), attempts).torn
    requires Lagging(After(Fresh(now), attempts).history, lag)
    ensures ExecutedIn(After(Fresh(now), attempts).history, a, hi - 21_600_000 + lag, hi) <= 3
  {
    ThreeNotesPerWindow(now, attempts, a, hi);
    ExecutedWereNoted(After(Fresh(now), attempts).history, a, lag, hi - WINDOW, hi);
  }

  function ExecutedUpTo(h: seq<Repair>, a: Action, hi: int): nat {
    ExecutedIn(h, a, hi - 21_600_000, hi)
  }

  /** At most three repairs of any action carried out in any half-open six hours. */
  ghost predicate WithinLimit(h: seq<Repair>) {
    forall a, hi :: ExecutedUpTo(h, a, hi) <= 3
  }

  /** A run whose repairs follow their note within `lag`, with torn ledgers only where `tearing` allows them. */
  ghost predicate Conditioned(now: int, attempts: seq<Attempt>, lag: nat, tearing: bool) {
    && CanRun(Fresh(now), attempts)
    && Lagging(After(Fresh(now), attempts).history, lag)
    && (After(Fresh(now), attempts).torn ==> tearing)
  }

  ghost predicate LimitHolds(lag: nat, tearing: bool) {
    forall now, attempts :: Conditioned(now, attempts, lag, tearing) ==> WithinLimit(After(Fresh(now), attempts).history)
  }

  function At(noted: int, executed: int): Attempt {
    Attempt(ReopenCircuit, noted, noted, noted, Executes(executed))
  }

  /** The stamps of this action; each attempt adds one and prunes by its own time. */
  ghost predicate Reads(l: Log, stamps: seq<int>, now: int, h: seq<Repair>) {
    Stamps(l.ledger, ReopenCircuit) == stamps && l.clock == now && l.history == h && !l.torn
  }

  lemma OneAttempt(l: Log, stamps: seq<int>, h: seq<Repair>, noted: int, executed: int) returns (next: Log)
    requires Reads(l, stamps, l.clock, h) && l.clock <= noted <= executed
    requires |Later(stamps, noted - WINDOW)| < MAX_PER_WINDOW
    ensures InTime(l, At(noted, executed)) && next == Attempted(l, At(noted, executed))
    ensures Reads(next, Later(stamps, noted - WINDOW) + [noted], executed, h + [Repair(ReopenCircuit, noted, Some(executed))])
  {
    next := Attempted(l, At(noted, executed));
  }

  lemma RunPush(l: Log, t: Attempt, rest: seq<Attempt>)
    requires InTime(l, t) && CanRun(Attempted(l, t), rest)
    ensures CanRun(l, [t] + rest) && After(l, [t] + rest) == After(Attempted(l, t), rest)
  {
    assert ([t] + rest)[1..] == rest;
    hide InTime, Attempted;
  }

  lemma LaterPush(s: seq<int>, x: int, cutoff: int)
    ensures Later(s + [x], cutoff) == Later(s, cutoff) + if x > cutoff then [x] else []
  {
    assert (s + [x])[..|s|] == s;
  }

  lemma ExecutedPush(h: seq<Repair>, noted: int, executed: int, hi: int)
    requires 0 < executed <= hi
    ensures ExecutedIn(h + [Repair(ReopenCircuit, noted, Some(executed))], ReopenCircuit, 0, hi)
            == ExecutedIn(h, ReopenCircuit, 0, hi) + 1
  {
    var r := Repair(ReopenCircuit, noted, Some(executed));
    assert (h + [r])[..|h|] == h;
  }

  lemma {:induction false} LaterTwice(s: seq<int>, a: int, b: int)
    ensures |Later(Later(s, a), b)| <= |Later(s, b)|
  {
    if s != [] {
      LaterTwice(s[..|s|-1], a, b);
      if s[|s|-1] > a { LaterPush(Later(s[..|s|-1], a), s[|s|-1], b); }
      assert Later(s[..|s|-1], a) + [] == Later(s[..|s|-1], a);
    }
  }

  /** The ledger after one more attempt has at most that attempt's stamp more above any cutoff. */
  lemma LaterAfterAttempt(stamps: seq<int>, pruned: int, noted: int, cutoff: int)
    ensures |Later(Later(stamps, pruned) + [noted], cutoff)| <= |Later(stamps, cutoff)| + if noted > cutoff then 1 else 0
  {
    LaterTwice(stamps, pruned, cutoff);
    LaterPush(Later(stamps, pruned), noted, cutoff);
  }

  lemma LaggingPush(h: seq<Repair>, r: Repair, lag: int)
    requires Lagging(h, lag) && (r.executed.Some? ==> r.noted <= r.executed.value <= r.noted + lag)
    ensures Lagging(h + [r], lag)
  {}

  /** One repair a millisecond late, two prompt ones, and a fourth as soon as the first note has aged out. */
  lemma LateRepairCrowdsWindow() returns (attempts: seq<Attempt>)
    ensures Conditioned(0, attempts, 1, false)
    ensures ExecutedUpTo(After(Fresh(0), attempts).history, ReopenCircuit, WINDOW) == 4
  {
    var l0 := Fresh(0);
    var early, aged := 1 - WINDOW, WINDOW - WINDOW;
    assert Later([], 0 - WINDOW) == [] && Later([], early) == [] && Later([], aged) == [];
    assert ExecutedIn([], ReopenCircuit, 0, WINDOW) == 0 && Lagging([], 1);
    hide Later, ExecutedIn, Attempted, InTime, CanRun, After, Lagging;
    var l1 := OneAttempt(l0, [], [], 0, 1);
    var s1 := Stamps(l1.ledger, ReopenCircuit);
    LaterAfterAttempt([], 0 - WINDOW, 0, early);
    LaterAfterAttempt([], 0 - WINDOW, 0, aged);
    var l2 := OneAttempt(l1, s1, l1.history, 1, 1);
    var s2 := Stamps(l2.ledger, ReopenCircuit);
    LaterAfterAttempt(s1, early, 1, early);
    LaterAfterAttempt(s1, early, 1, aged);
    var l3 := OneAttempt(l2, s2, l2.history, 1, 1);
    var s3 := Stamps(l3.ledger, ReopenCircuit);
    LaterAfterAttempt(s2, early, 1, aged);
    var l4 := OneAttempt(l3, s3, l3.history, WINDOW, WINDOW);
    hide Stamps;
    CountFour(l1.history, l2.history, l3.history, l4.history);
    var late, prompt, last := At(0, 1), At(1, 1), At(WINDOW, WINDOW);
    attempts := [late] + ([prompt] + ([prompt] + ([last] + [])));
    FourAttempts(l0, l1, l2, l3, l4, late, prompt, prompt, last);
  }

  lemma CountFour(h1: seq<Repair>, h2: seq<Repair>, h3: seq<Repair>, h4: seq<Repair>)
    requires h1 == [] + [Repair(ReopenCircuit, 0, Some(1))] && h2 == h1 + [Repair(ReopenCircuit, 1, Some(1))]
    requires h3 == h2 + [Repair(ReopenCircuit, 1, Some(1))] && h4 == h3 + [Repair(ReopenCircuit, WINDOW, Some(WINDOW))]
    ensures ExecutedIn(h4, ReopenCircuit, 0, WINDOW) == 4 && Lagging(h4, 1)
  {
    assert ExecutedIn([], ReopenCircuit, 0, WINDOW) == 0 && Lagging([], 1);
    hide ExecutedIn, Lagging;
    ExecutedPush([], 0, 1, WINDOW);
    ExecutedPush(h1, 1, 1, WINDOW);
    ExecutedPush(h2, 1, 1, WINDOW);
    ExecutedPush(h3, WINDOW, WINDOW, WINDOW);
    LaggingPush([], Repair(ReopenCircuit, 0, Some(1)), 1);
    LaggingPush(h1, Repair(ReopenCircuit, 1, Some(1)), 1);
    LaggingPush(h2, Repair(ReopenCircuit, 1, Some(1)), 1);
    LaggingPush(h3, Repair(ReopenCircuit, WINDOW, Some(WINDOW)), 1);
  }

  lemma FourAttempts(l0: Log, l1: Log, l2: Log, l3: Log, l4: Log, t1: Attempt, t2: Attempt, t3: Attempt, t4: Attempt)
    requires InTime(l0, t1) && l1 == Attempted(l0, t1) && InTime(l1, t2) && l2 == Attempted(l1, t2)
    requires InTime(l2, t3) && l3 == Attempted(l2, t3) && InTime(l3, t4) && l4 == Attempted(l3, t4)
    ensures var attempts := [t1] + ([t2] + ([t3] + ([t4] + [])));
      CanRun(l0, attempts) && After(l0, attempts) == l4
  {
    assert CanRun(l4, []) && After(l4, []) == l4;
    hide *;
    RunPush(l3, t4, []);
    RunPush(l2, t3, [t4] + []);
    RunPush(l1, t2, [t3] + ([t4] + []));
    RunPush(l0, t1, [t2] + ([t3] + ([t4] + [])));
  }

  lemma {:induction false} RunConcat(l: Log, a: seq<Attempt>, b: seq<Attempt>)
    requires CanRun(l, a) && CanRun(After(l, a), b)
    ensures CanRun(l, a + b) && After(l, a + b) == After(After(l, a), b)
    decreases |a|
  {
    hide InTime, Attempted;
    if a == [] {
      assert a + b == b;
    } else {
      RunConcat(Attempted(l, a[0]), a[1..], b);
      assert (a + b)[1..] == a[1..] + b;
    }
  }

  const TEARS := Attempt(ReopenCircuit, 0, 0, 0, TearsLedger)

  /** A repair, and one that dies while it writes its note, from an empty ledger back to an empty ledger. */
  lemma TornCycle(l: Log) returns (next: Log)
    requires l.ledger == map[] && l.clock == 0
    ensures var cycle := [At(0, 0)] + ([TEARS] + []);
      CanRun(l, cycle) && After(l, cycle) == next
    ensures next.ledger == map[] && next.clock == 0
    ensures next.history == l.history + [Repair(ReopenCircuit, 0, Some(0))]
  {
    LaterPush([], 0, 0 - WINDOW);
    assert Later([], 0 - WINDOW) == [] && [] + [0] == [0];
    var mid := Attempted(l, At(0, 0));
    assert Stamps(mid.ledger, ReopenCircuit) == [0];
    next := Attempted(mid, TEARS);
    assert CanRun(next, []) && After(next, []) == next;
    assert InTime(l, At(0, 0)) && InTime(mid, TEARS);
    assert next.ledger == map[] && next.clock == 0 && next.history == l.history + [Repair(ReopenCircuit, 0, Some(0))];
    hide *;
    RunPush(mid, TEARS, []);
    RunPush(l, At(0, 0), [TEARS] + []);
  }

  /** Once ledgers can be torn there is no limit: a crash that tears the ledger makes it forget every note, so any number
      of prompt repairs fit into one moment. */
  lemma {:induction false} TornLedgersDefeatLimit(n: nat) returns (attempts: seq<Attempt>)
    ensures CanRun(Fresh(0), attempts)
    ensures var l := After(Fresh(0), attempts);
      && l.ledger == map[] && l.clock == 0
      && Lagging(l.history, 0) && ExecutedUpTo(l.history, ReopenCircuit, 0) == n
  {
    if n == 0 {
      attempts := [];
    } else {
      var before := TornLedgersDefeatLimit(n - 1);
      var l := After(Fresh(0), before);
      var next := TornCycle(l);
      var cycle := [At(0, 0)] + ([TEARS] + []);
      attempts := before + cycle;
      LaggingPush(l.history, Repair(ReopenCircuit, 0, Some(0)), 0);
      ExecutedAtOnce(l.history);
      hide *;
      RunConcat(Fresh(0), before, cycle);
    }
  }

  lemma ExecutedAtOnce(h: seq<Repair>)
    ensures ExecutedUpTo(h + [Repair(ReopenCircuit, 0, Some(0))], ReopenCircuit, 0) == ExecutedUpTo(h, ReopenCircuit, 0) + 1
  {
    assert (h + [Repair(ReopenCircuit, 0, Some(0))])[..|h|] == h;
  }

  /** One run that crowds a window is enough. */
  lemma LimitBroken(attempts: seq<Attempt>, hi: int, lag: nat, tearing: bool)
    requires Conditioned(0, attempts, lag, tearing)
    requires ExecutedUpTo(After(Fresh(0), attempts).history, ReopenCircuit, hi) > MAX_PER_WINDOW
    ensures !LimitHolds(lag, tearing)
  {
    hide Conditioned, ExecutedUpTo, After;
    assert !WithinLimit(After(Fresh(0), attempts).history);
  }

  lemma PromptRunKeepsLimit(now: int, attempts: seq<Attempt>)
    requires Conditioned(now, attempts, 0, false)
    ensures WithinLimit(After(Fresh(now), attempts).history)
  {
    forall a, hi ensures ExecutedUpTo(After(Fresh(now), attempts).history, a, hi) <= MAX_PER_WINDOW {
      ThreeRepairsPerShorterWindow(now, attempts, a, 0, hi);
    }
  }

  lemma MoreLagIsAllowed(now: int, attempts: seq<Attempt>, lag: nat, more: nat, tearing: bool)
    requires lag <= more && Conditioned(now, attempts, lag, tearing)
    ensures Conditioned(now, attempts, more, tearing)
  {
    hide CanRun, After;
  }

  /** The limit on repairs that are carried out holds over every run exactly when a repair never trails its note and no
      crash tears the ledger: the ledger counts notes, so any delay lets four repairs into some six hours, and a torn
      ledger has forgotten its notes altogether. */
  lemma LimitHoldsIff(lag: nat, tearing: bool)
    ensures LimitHolds(lag, tearing) <==> lag == 0 && !tearing
  {
    if tearing {
      var attempts := TornLedgersDefeatLimit(MAX_PER_WINDOW + 1);
      assert Conditioned(0, attempts, 0, true);
      hide *;
      MoreLagIsAllowed(0, attempts, 0, lag, true);
      LimitBroken(attempts, 0, lag, tearing);
    } else if lag > 0 {
      var attempts := LateRepairCrowdsWindow();
      hide *;
      MoreLagIsAllowed(0, attempts, 1, lag, false);
      LimitBroken(attempts, WINDOW, lag, tearing);
    } else {
      hide Conditioned, WithinLimit, After, CanRun;
      forall now, attempts | Conditioned(now, attempts, lag, tearing) ensures WithinLimit(After(Fresh(now), attempts).history) {
        PromptRunKeepsLimit(now, attempts);
      }
    }
  }

  // ----- escalation -----

  lemma {:induction false} LaterShrinks(s: seq<int>, a: int, b: int)
    requires a <= b
    ensures |Later(s, b)| <= |Later(s, a)|
  {
    if s != [] { LaterShrinks(s[..|s|-1], a, b); }
  }

  /** A condition that is found is never passed over in silence: when the run does not escalate it as exhausted, it
      attempts the repair, although it looks at the clock again in between. */
  lemma EscalatedOrAttempted(l: Log, t: Attempt, lookedAt: int)
    requires lookedAt <= t.checked
    ensures RecentRepairs(l.ledger, t.action, lookedAt) >= MAX_PER_WINDOW || Allowed(l, t)
  {
    LaterShrinks(Stamps(l.ledger, t.action), lookedAt - WINDOW, t.checked - WINDOW);
  }
}

/**
 * The liveness probe pool: workers that share a pending list, the platforms being contacted and the platforms that
 * asked to be left alone. Between two waits a worker runs undisturbed, so every interleaving is a sequence of such
 * segments by arbitrary workers.
 */
module ProbePool {
  import opened Basics
  import opened Interleave

  datatype Outcome =
    | ProviderBackoff | SweepBudget                    // never contacted, or refused
    | Alive | NotFound | GoneOffHost | WallOwnHost | RateLimited | ServerError | Timeout | Unreachable
    | OtherHttp(status: nat)

  /** How a probe ends: a response, whether it came from another host, and whether its content is of the platform's
      kind; or no contact was allowed; or it was cut off; or it broke in any other way. */
  datatype Answer = Response(status: nat, offHost: bool, ownKind: bool) | Held | CutOff | Broken

  function ClassifyLivenessOutcome(status: nat, offHost: bool, ownKind: bool): Outcome {
    if status == 429 then RateLimited
    else if status == 404 || status == 410 then NotFound
    else if offHost then GoneOffHost
    else if status >= 500 then ServerError
    else if status >= 400 then OtherHttp(status)
    else if ownKind then Alive
    else WallOwnHost
  }

  function OutcomeOf(a: Answer): Outcome {
    match a
    case Response(status, offHost, ownKind) => ClassifyLivenessOutcome(status, offHost, ownKind)
    case Held => ProviderBackoff
    case CutOff => Timeout
    case Broken => Unreachable
  }

  /** The platform asked to be left alone. */
  predicate Refuses(a: Answer) {
    a.Held? || (a.Response? && a.status == 429)
  }

  /** What each outcome of a probe says about the answer: a refusal, and nothing else, is inconclusive by the program's
      own doing; only an own-host answer below 400 is alive or a wall; absence needs a 404, a 410 or another host. */
  lemma OutcomeMeans(a: Answer)
    ensures var o := OutcomeOf(a);
      && (o.RateLimited? || o.ProviderBackoff? <==> Refuses(a))
      && (o.NotFound? <==> a.Response? && (a.status == 404 || a.status == 410))
      && (o.GoneOffHost? <==> a.Response? && a.offHost && a.status != 404 && a.status != 410 && a.status != 429)
      && (o.Alive? <==> a.Response? && !a.offHost && a.status < 400 && a.ownKind)
      && (o.WallOwnHost? <==> a.Response? && !a.offHost && a.status < 400 && !a.ownKind)
      && (o.ServerError? <==> a.Response? && !a.offHost && a.status >= 500)
      && (o.OtherHttp? <==> a.Response? && !a.offHost && 400 <= a.status < 500 && a.status !in {404, 410, 429})
      && (o.OtherHttp? ==> o.status == a.status)
      && (o.Timeout? <==> a.CutOff?) && (o.Unreachable? <==> a.Broken?) && (o.ProviderBackoff? <==> a.Held?)
      && !o.SweepBudget?
  {}

  /** What the pool has done, in order. */
  datatype Event = Start(board: nat) | Refusal(platform: Platform)

  datatype Pool = Pool(
    pending: seq<nat>,             // ascending queue positions
    active: set<Platform>,
    backingOff: set<Platform>,
    inFlight: set<nat>,
    outcomes: map<nat, Outcome>,   // of the boards that are finished
    log: seq<Event>)

  datatype Setting = Setting(queue: seq<Board>, browser: set<Platform>)

  // ----- taking the next board -----

  function Dropped(p: Pool, k: nat, o: Outcome): Pool
    requires k < |p.pending|
  {
    p.(pending := p.pending[..k] + p.pending[k+1..], outcomes := p.outcomes[p.pending[k] := o])
  }

  function Taken(s: Setting, p: Pool, k: nat): Pool
    requires k < |p.pending| && p.pending[k] < |s.queue|
  {
    var i := p.pending[k];
    p.(pending := p.pending[..k] + p.pending[k+1..], active := p.active + {s.queue[i].platform},
       inFlight := p.inFlight + {i}, log := p.log + [Start(i)])
  }

  ghost predicate Partition(s: Setting, p: Pool) {
    && (forall k :: 0 <= k < |p.pending| ==> p.pending[k] < |s.queue|)
    && (forall j, k :: 0 <= j < k < |p.pending| ==> p.pending[j] < p.pending[k])
    && (forall i :: i in p.inFlight ==> i < |s.queue|)
    && (forall i :: i in p.outcomes ==> i < |s.queue|)
    && (forall i :: 0 <= i < |s.queue| ==>
          && (i in p.pending || i in p.inFlight || i in p.outcomes)
          && !(i in p.pending && i in p.inFlight) && !(i in p.pending && i in p.outcomes)
          && !(i in p.inFlight && i in p.outcomes))
  }

  /** One probe per platform at a time, and `active` is exactly those platforms. */
  ghost predicate OnePerPlatform(s: Setting, p: Pool) {
    && (forall i :: i in p.inFlight ==> i < |s.queue| && s.queue[i].platform in p.active)
    && (forall i, j :: i in p.inFlight && j in p.inFlight && i < |s.queue| && j < |s.queue| && i != j ==>
          s.queue[i].platform != s.queue[j].platform)
    && (forall q :: q in p.active ==> exists i :: i in p.inFlight && i < |s.queue| && s.queue[i].platform == q)
  }

  /** Boards are started once, never a browser's, and none of a platform after its refusal. */
  ghost predicate History(s: Setting, p: Pool) {
    && (forall a :: 0 <= a < |p.log| && p.log[a].Start? ==>
          && p.log[a].board < |s.queue| && p.log[a].board !in p.pending
          && s.queue[p.log[a].board].platform !in s.browser)
    && (forall a, b :: 0 <= a < b < |p.log| && p.log[a].Start? && p.log[b].Start? ==> p.log[a].board != p.log[b].board)
    && (forall q :: q in p.backingOff <==> Refusal(q) in p.log)
    && (forall a, b :: 0 <= a < b < |p.log| && p.log[a].Refusal? && p.log[b].Start? && p.log[b].board < |s.queue| ==>
          s.queue[p.log[b].board].platform != p.log[a].platform)
  }

  /** A board with any other outcome than being passed over was contacted. */
  ghost predicate Contacted(p: Pool) {
    && (forall i :: i in p.inFlight ==> Start(i) in p.log)
    && (forall i :: i in p.outcomes ==>
          Start(i) in p.log || p.outcomes[i].ProviderBackoff? || p.outcomes[i].SweepBudget?)
  }

  ghost predicate Valid(s: Setting, p: Pool) {
    Partition(s, p) && OnePerPlatform(s, p) && History(s, p) && Contacted(p)
  }

  lemma PendingMembers(a: seq<nat>, k: nat)
    requires k < |a| && forall i, j :: 0 <= i < j < |a| ==> a[i] < a[j]
    ensures var rest := a[..k] + a[k+1..];
      && (forall x :: x in rest <==> x in a && x != a[k])
      && (forall i, j :: 0 <= i < j < |rest| ==> rest[i] < rest[j])
  {
    var rest := a[..k] + a[k+1..];
    forall x | x in a && x != a[k] ensures x in rest {
      var j :| 0 <= j < |a| && a[j] == x;
      if j < k { assert rest[j] == x; } else { assert rest[j-1] == x; }
    }
    assert forall i :: 0 <= i < |rest| ==> rest[i] == if i < k then a[i] else a[i+1];
  }

  lemma DropKeepsValid(s: Setting, p: Pool, k: nat, o: Outcome)
    requires Valid(s, p) && k < |p.pending| && (o.ProviderBackoff? || o.SweepBudget?)
    ensures Valid(s, Dropped(p, k, o))
  {
    PendingMembers(p.pending, k);
    assert p.pending[k] in p.pending;
    DropKeepsPartition(s, p, k, o);
    hide Partition;
  }

  lemma DropKeepsPartition(s: Setting, p: Pool, k: nat, o: Outcome)
    requires Partition(s, p) && k < |p.pending|
    ensures Partition(s, Dropped(p, k, o))
  {
    PendingMembers(p.pending, k);
    assert p.pending[k] in p.pending;
    assert forall x :: x in Dropped(p, k, o).pending ==> x in p.pending;
  }

  lemma TakeKeepsValid(s: Setting, p: Pool, k: nat)
    requires Valid(s, p) && k < |p.pending| && p.pending[k] < |s.queue|
    requires var q := s.queue[p.pending[k]].platform; q !in p.active && q !in p.backingOff && q !in s.browser
    ensures Valid(s, Taken(s, p, k))
  {
    PendingMembers(p.pending, k);
    assert p.pending[k] in p.pending;
    TakeKeepsPartition(s, p, k);
    TakeKeepsPlatforms(s, p, k);
    TakeKeepsHistory(s, p, k);
    hide Partition, OnePerPlatform, History;
  }

  lemma TakeKeepsPartition(s: Setting, p: Pool, k: nat)
    requires Partition(s, p) && k < |p.pending| && p.pending[k] < |s.queue|
    ensures Partition(s, Taken(s, p, k))
  {
    PendingMembers(p.pending, k);
    assert p.pending[k] in p.pending;
    assert forall x :: x in Taken(s, p, k).pending ==> x in p.pending;
  }

  lemma TakeKeepsPlatforms(s: Setting, p: Pool, k: nat)
    requires OnePerPlatform(s, p) && k < |p.pending| && p.pending[k] < |s.queue|
    requires s.queue[p.pending[k]].platform !in p.active
    ensures OnePerPlatform(s, Taken(s, p, k))
  {
    var t := Taken(s, p, k);
    forall q | q in t.active ensures exists i :: i in t.inFlight && i < |s.queue| && s.queue[i].platform == q {
      if q in p.active {
        var i :| i in p.inFlight && i < |s.queue| && s.queue[i].platform == q;
        assert i in t.inFlight;
      } else {
        assert p.pending[k] in t.inFlight;
      }
    }
  }

  lemma TakeKeepsHistory(s: Setting, p: Pool, k: nat)
    requires History(s, p) && Partition(s, p) && k < |p.pending| && p.pending[k] < |s.queue|
    requires s.queue[p.pending[k]].platform !in p.backingOff && s.queue[p.pending[k]].platform !in s.browser
    ensures History(s, Taken(s, p, k))
  {
    PendingMembers(p.pending, k);
    assert p.pending[k] in p.pending;
    var t := Taken(s, p, k);
    forall a, b | 0 <= a < b < |t.log| && t.log[a].Refusal? && t.log[b].Start? && t.log[b].board < |s.queue|
      ensures s.queue[t.log[b].board].platform != t.log[a].platform
    {
      if b == |p.log| { assert p.log[a] == t.log[a] && p.log[a] in p.log; }
    }
    assert forall q :: Refusal(q) in t.log <==> Refusal(q) in p.log;
  }

  // ----- ending a probe -----

  function Ended(s: Setting, p: Pool, i: nat, o: Outcome, refused: bool): Pool
    requires i < |s.queue|
  {
    var q := s.queue[i].platform;
    var done := p.(inFlight := p.inFlight - {i}, active := p.active - {q}, outcomes := p.outcomes[i := o]);
    if refused then done.(backingOff := p.backingOff + {q}, log := p.log + [Refusal(q)]) else done
  }

  lemma EndWrites(s: Setting, p: Pool, i: nat, o: Outcome, refused: bool)
    requires i < |s.queue|
    ensures var e := Ended(s, p, i, o, refused);
            var q := s.queue[i].platform;
      && e.outcomes == p.outcomes[i := o] && e.pending == p.pending && e.inFlight == p.inFlight - {i}
      && e.active == p.active - {q} && (forall r :: r in e.backingOff <==> r in p.backingOff || (refused && r == q))
  {}

  lemma EndKeepsValid(s: Setting, p: Pool, i: nat, o: Outcome, refused: bool)
    requires Valid(s, p) && i in p.inFlight
    ensures i < |s.queue| && Valid(s, Ended(s, p, i, o, refused))
  {
    var e := Ended(s, p, i, o, refused);
    forall q | q in e.active ensures exists j :: j in e.inFlight && j < |s.queue| && s.queue[j].platform == q {
      var j :| j in p.inFlight && j < |s.queue| && s.queue[j].platform == q;
      assert j in e.inFlight;
    }
    EndKeepsHistory(s, p, i, o, refused);
    hide History;
  }

  lemma EndKeepsHistory(s: Setting, p: Pool, i: nat, o: Outcome, refused: bool)
    requires History(s, p) && i < |s.queue|
    ensures History(s, Ended(s, p, i, o, refused))
  {
    var q := s.queue[i].platform;
    assert forall r :: Refusal(r) in p.log + [Refusal(q)] <==> Refusal(r) in p.log || r == q;
  }

  // ----- the pool -----

  datatype Worker = Seeking | Probing(board: nat) | Left

  /** What one worker does when it is its turn: how late it is at each board, and how its probe ends. */
  datatype Turn = Turn(worker: nat, late: nat -> bool, answer: Answer)

  ghost predicate WorkersMatch(p: Pool, workers: seq<Worker>) {
    && (forall w :: 0 <= w < |workers| && workers[w].Probing? ==> workers[w].board in p.inFlight)
    && (forall i :: i in p.inFlight ==> Probing(i) in workers)
    && (forall v, w :: 0 <= v < w < |workers| && workers[v].Probing? ==> workers[v] != workers[w])
    && (Left in workers ==> p.pending == [])
  }

  class ProbeRun {
    const setting: Setting
    var pool: Pool
    var workers: seq<Worker>

    ghost predicate Consistent()
      reads this
    {
      Valid(setting, pool) && WorkersMatch(pool, workers)
    }

    constructor (s: Setting, concurrency: int)
      ensures Consistent() && setting == s && |workers| == if concurrency < 1 then 1 else concurrency
      ensures pool == Pool(seq(|s.queue|, i => i), {}, {}, {}, map[], [])
      ensures forall w :: w in workers ==> w == Seeking
    {
      setting := s;
      pool := Pool(seq(|s.queue|, i => i), {}, {}, {}, map[], []);
      workers := seq(if concurrency < 1 then 1 else concurrency, _ => Seeking);
      new;
      assert forall i :: 0 <= i < |s.queue| ==> pool.pending[i] == i;
      forall i | 0 <= i < |s.queue| ensures i in pool.pending { assert pool.pending[i] == i; }
    }

    /** The next board of a platform that is neither being contacted nor backing off. */
    method TakeNext(late: nat -> bool) returns (index: Option<nat>)
      requires Valid(setting, pool)
      modifies this`pool
      ensures Valid(setting, pool)
      ensures TookNext(setting, old(pool), pool, index, late)
    {
      var k := 0;
      ScanBegins(setting, pool, late);
      while k < |pool.pending|
        invariant k <= |pool.pending|
        invariant Valid(setting, pool) && Scanned(setting, old(pool), pool, k, late)
        decreases |pool.pending| - k
      {
        hide Valid, Scanned, TookNext, Dropped, Taken;
        PendingIsKnown(setting, pool, k);
        var i := pool.pending[k];
        var platform := setting.queue[i].platform;
        if platform in setting.browser || late(i) || platform in pool.backingOff {
          ScanDrops(setting, old(pool), pool, k, late);
          pool := Dropped(pool, k, PassedOver(setting, pool.backingOff, i, late));
        } else if platform !in pool.active {
          ScanTakes(setting, old(pool), pool, k, late);
          pool := Taken(setting, pool, k);
          return Some(i);
        } else {
          ScanPasses(setting, old(pool), pool, k, late);
          k := k + 1;
        }
      }
      ScanFinds(setting, old(pool), pool, late);
      index := None;
    }

    /** One undisturbed stretch of one worker: look for a board, or end the probe it was waiting for. Either the
        remaining effort shrinks, or nothing changed because the worker had left or has to wait for a probe. */
    method TakeTurn(t: Turn)
      requires Consistent() && t.worker < |workers|
      modifies this
      ensures Consistent() && |workers| == |old(workers)|
      ensures TurnTaken(setting, old(pool), old(workers), t, pool, workers)
      ensures Effort(pool, workers) < Effort(old(pool), old(workers))
              || (pool == old(pool) && workers == old(workers) && Stuck(setting, pool, workers, t.worker))
      ensures |pool.log| >= |old(pool.log)| && pool.log[..|old(pool.log)|] == old(pool.log)
      ensures old(workers)[t.worker].Probing? ==>
                var i := old(workers)[t.worker].board;
                && i < |setting.queue|
                && pool.outcomes == old(pool.outcomes)[i := OutcomeOf(t.answer)]
                && pool.pending == old(pool.pending) && pool.inFlight == old(pool.inFlight) - {i}
                && pool.active == old(pool.active) - {setting.queue[i].platform}
                && (forall q :: q in pool.backingOff <==>
                      q in old(pool.backingOff) || (Refuses(t.answer) && q == setting.queue[i].platform))
      ensures forall i :: i in pool.outcomes ==>
                (i in old(pool.outcomes) && pool.outcomes[i] == old(pool.outcomes)[i])
                || (old(workers)[t.worker] == Probing(i) && pool.outcomes[i] == OutcomeOf(t.answer))
                || (old(workers)[t.worker].Seeking? && SkippedFor(setting, old(pool), i, t.late, pool.outcomes[i]))
    {
      hide Valid, WorkersMatch, TookNext, Effort, SkippedFor, PassedOverOnly;
      ghost var before, team := pool, workers;
      match workers[t.worker] {
        case Left => return;
        case Seeking =>
          var index := TakeNext(t.late);
          LookedFor(setting, before, pool, team, t, index);
          SkipsAreExplained(setting, before, pool, t.late, index);
          if index.Some? {
            workers := workers[t.worker := Probing(index.value)];
            StartMatches(setting, before, pool, team, t.worker, index.value, t.late);
          } else if pool.pending == [] {
            workers := workers[t.worker := Left];
            LeaveMatches(setting, before, pool, team, t.worker, t.late);
          } else {
            assert team[t.worker := Seeking] == team;
            WaitMatches(setting, before, pool, team, t.worker, t.late);
          }
        case Probing(i) =>
          InFlightIsKnown(setting, pool, workers, t.worker);
          EndKeepsValid(setting, pool, i, OutcomeOf(t.answer), Refuses(t.answer));
          pool := Ended(setting, pool, i, OutcomeOf(t.answer), Refuses(t.answer));
          workers := workers[t.worker := Seeking];
          EndWrites(setting, before, i, OutcomeOf(t.answer), Refuses(t.answer));
          EndMatches(setting, before, team, t.worker, OutcomeOf(t.answer), Refuses(t.answer));
      }
    }

    /** Any interleaving whatever: turns taken by arbitrary workers, with arbitrary answers and an arbitrary clock. Once
        every worker has had its turn as many times over as there was effort left, all have left. */
    method Run(turns: seq<Turn>)
      requires Consistent() && forall t :: t in turns ==> t.worker < |workers|
      modifies this
      ensures Consistent() && |workers| == |old(workers)|
      ensures Reaches(setting, old(pool), old(workers), turns, pool, workers)
      ensures Effort(pool, workers) <= Effort(old(pool), old(workers))
      ensures AllLeft(workers) && |workers| > 0 ==> Settled(setting, pool)
      ensures RoundsIn(turns, |workers|).complete >= Effort(old(pool), old(workers)) ==> AllLeft(workers)
      ensures OutcomesExplained(setting, old(pool), old(workers), turns, pool)
    {
      hide OutcomesExplained, SkippedFor, Valid, WorkersMatch, Effort, Settled, TurnTaken, RoundsIn, OnPace, AllLeft, Stuck;
      var k := 0;
      assert turns[..0] == [];
      ghost var effort := Effort(pool, workers);
      assert OnPace(setting, pool, workers, effort, RoundsIn([], |workers|)) by { PaceBegins(setting, pool, workers); }
      NothingToExplain(setting, pool, workers);
      while k < |turns|
        invariant k <= |turns| && Consistent() && |workers| == |old(workers)|
        invariant Reaches(setting, old(pool), old(workers), turns[..k], pool, workers)
        invariant Effort(pool, workers) <= effort == Effort(old(pool), old(workers))
        invariant OnPace(setting, pool, workers, effort, RoundsIn(turns[..k], |workers|))
        invariant OutcomesExplained(setting, old(pool), old(workers), turns[..k], pool)
      {
        hide Reaches;
        assert turns[k] in turns;
        ghost var mid, team := pool, workers;
        TakeTurn(turns[k]);
        assert turns[..k+1] == turns[..k] + [turns[k]];
        ReachesOneMore(setting, old(pool), old(workers), turns[..k], mid, team, turns[k], pool, workers);
        TurnKeepsPace(setting, mid, team, pool, workers, effort, turns[..k], turns[k]);
        TurnExplains(setting, old(pool), old(workers), turns[..k], mid, team, turns[k], pool);
        k := k + 1;
      }
      assert turns[..k] == turns;
      PaceEnds(setting, pool, workers, effort, RoundsIn(turns, |workers|));
      if AllLeft(workers) && |workers| > 0 { AllLeftIsSettled(setting, pool, workers); }
    }
  }

  /** Why a board is passed over for good: its collector owns it, the time is up, or its platform backs off. */
  function PassedOver(s: Setting, backingOff: set<Platform>, i: nat, late: nat -> bool): Outcome
    requires i < |s.queue|
  {
    if s.queue[i].platform in s.browser then ProviderBackoff
    else if late(i) then SweepBudget
    else ProviderBackoff
  }

  /** Outcomes are only added, each for its reason. */
  ghost predicate PassedOverOnly(s: Setting, a: Pool, b: Pool, late: nat -> bool) {
    && (forall i :: i in a.outcomes ==> i in b.outcomes && b.outcomes[i] == a.outcomes[i])
    && (forall i :: i in b.outcomes && i !in a.outcomes ==>
          && i < |s.queue| && (s.queue[i].platform in s.browser || late(i) || s.queue[i].platform in a.backingOff)
          && b.outcomes[i] == PassedOver(s, a.backingOff, i, late))
  }

  /** Board `i` was given `o` without a probe, as the time was up or its platform may not be contacted. */
  predicate SkippedFor(s: Setting, p: Pool, i: nat, late: nat -> bool, o: Outcome) {
    && i < |s.queue|
    && (if s.queue[i].platform in s.browser then o == ProviderBackoff
        else if late(i) then o == SweepBudget
        else o == ProviderBackoff && s.queue[i].platform in p.backingOff)
  }

  lemma SkipsAreExplained(s: Setting, a: Pool, b: Pool, late: nat -> bool, index: Option<nat>)
    requires TookNext(s, a, b, index, late)
    ensures forall i :: i in b.outcomes ==>
      (i in a.outcomes && b.outcomes[i] == a.outcomes[i]) || SkippedFor(s, a, i, late, b.outcomes[i])
  {}

  /** A board that has to wait, and only for its platform to be free again. */
  predicate Waits(s: Setting, p: Pool, x: nat, late: nat -> bool) {
    && x < |s.queue| && s.queue[x].platform in p.active
    && s.queue[x].platform !in s.browser && !late(x) && s.queue[x].platform !in p.backingOff
  }

  /** The scan has come to position `k`: every board before it waits for a platform that is being contacted. */
  ghost predicate Scanned(s: Setting, a: Pool, b: Pool, k: nat, late: nat -> bool) {
    && k <= |b.pending| <= |a.pending|
    && b.backingOff == a.backingOff && b.inFlight == a.inFlight && b.active == a.active && b.log == a.log
    && (forall x :: x in b.pending ==> x in a.pending)
    && (forall j :: 0 <= j < k ==> Waits(s, a, b.pending[j], late))
    && PassedOverOnly(s, a, b, late)
  }

  /** What a worker gets. A board: no earlier pending board could have been taken. None: nothing can be taken, and if
      boards are still pending, some probe is in flight that will make room. */
  ghost predicate TookNext(s: Setting, a: Pool, b: Pool, index: Option<nat>, late: nat -> bool) {
    && b.backingOff == a.backingOff && |b.pending| <= |a.pending| && PassedOverOnly(s, a, b, late)
    && (forall x :: x in b.pending ==> x in a.pending)
    && (match index
        case None =>
          && b.inFlight == a.inFlight && b.active == a.active && b.log == a.log
          && (forall x :: x in b.pending ==> Waits(s, a, x, late))
          && (b.pending != [] ==> a.inFlight != {})
        case Some(i) =>
          && i in a.pending && i !in a.inFlight && i < |s.queue| && |b.pending| < |a.pending|
          && s.queue[i].platform !in a.active && s.queue[i].platform !in a.backingOff && s.queue[i].platform !in s.browser
          && b.inFlight == a.inFlight + {i} && b.log == a.log + [Start(i)]
          && !late(i) && (forall x :: x in b.pending && x < i ==> Waits(s, a, x, late)))
  }

  lemma PendingIsKnown(s: Setting, p: Pool, k: nat)
    requires Valid(s, p) && k < |p.pending|
    ensures p.pending[k] < |s.queue| && p.pending[k] in p.pending
    ensures p.pending[k] !in p.outcomes && p.pending[k] !in p.inFlight
  {
    assert p.pending[k] in p.pending;
  }

  lemma ScanBegins(s: Setting, p: Pool, late: nat -> bool)
    ensures Scanned(s, p, p, 0, late)
  {}

  lemma ScanDrops(s: Setting, a: Pool, b: Pool, k: nat, late: nat -> bool)
    requires Valid(s, b) && Scanned(s, a, b, k, late) && k < |b.pending| && b.pending[k] < |s.queue|
    requires var q := s.queue[b.pending[k]].platform; q in s.browser || late(b.pending[k]) || q in b.backingOff
    ensures var p := Dropped(b, k, PassedOver(s, b.backingOff, b.pending[k], late));
      Valid(s, p) && Scanned(s, a, p, k, late) && |p.pending| == |b.pending| - 1
  {
    DropKeepsValid(s, b, k, PassedOver(s, b.backingOff, b.pending[k], late));
    PendingIsKnown(s, b, k);
    assert Partition(s, b);
    PendingMembers(b.pending, k);
    hide Valid, Partition, PassedOver;
    DropExplains(s, a, b, k, late);
    var p := Dropped(b, k, PassedOver(s, b.backingOff, b.pending[k], late));
    assert forall j :: 0 <= j < k ==> p.pending[j] == b.pending[j];
    hide PassedOverOnly;
  }

  lemma DropExplains(s: Setting, a: Pool, b: Pool, k: nat, late: nat -> bool)
    requires PassedOverOnly(s, a, b, late) && k < |b.pending| && b.pending[k] < |s.queue|
    requires b.pending[k] !in b.outcomes && b.backingOff == a.backingOff
    requires var q := s.queue[b.pending[k]].platform; q in s.browser || late(b.pending[k]) || q in b.backingOff
    ensures PassedOverOnly(s, a, Dropped(b, k, PassedOver(s, b.backingOff, b.pending[k], late)), late)
  {
    hide PassedOver;
  }

  lemma ScanPasses(s: Setting, a: Pool, b: Pool, k: nat, late: nat -> bool)
    requires Scanned(s, a, b, k, late) && k < |b.pending| && b.pending[k] < |s.queue|
    requires Waits(s, b, b.pending[k], late)
    ensures Scanned(s, a, b, k + 1, late)
  {}

  lemma ScanTakes(s: Setting, a: Pool, b: Pool, k: nat, late: nat -> bool)
    requires Valid(s, b) && Scanned(s, a, b, k, late) && k < |b.pending| && b.pending[k] < |s.queue|
    requires var q := s.queue[b.pending[k]].platform; q !in b.active && q !in b.backingOff && q !in s.browser
    requires !late(b.pending[k])
    ensures Valid(s, Taken(s, b, k)) && TookNext(s, a, Taken(s, b, k), Some(b.pending[k]), late)
  {
    TakeKeepsValid(s, b, k);
    PendingIsKnown(s, b, k);
    assert Partition(s, b);
    PendingMembers(b.pending, k);
    hide Valid, Partition;
    TakeIsNext(s, a, b, k, late);
  }

  lemma TakeIsNext(s: Setting, a: Pool, b: Pool, k: nat, late: nat -> bool)
    requires Scanned(s, a, b, k, late) && k < |b.pending| && b.pending[k] < |s.queue|
    requires var q := s.queue[b.pending[k]].platform; q !in b.active && q !in b.backingOff && q !in s.browser
    requires !late(b.pending[k]) && b.pending[k] in b.pending && b.pending[k] !in b.inFlight
    requires forall i, j :: 0 <= i < j < |b.pending| ==> b.pending[i] < b.pending[j]
    ensures TookNext(s, a, Taken(s, b, k), Some(b.pending[k]), late)
  {
    var i, t := b.pending[k], Taken(s, b, k);
    PendingMembers(b.pending, k);
    assert PassedOverOnly(s, a, t, late);
    forall x | x in t.pending && x < i ensures Waits(s, a, x, late) {
      var j :| 0 <= j < |b.pending| && b.pending[j] == x;
    }
    hide PassedOverOnly;
  }

  lemma ScanFinds(s: Setting, a: Pool, b: Pool, late: nat -> bool)
    requires Valid(s, b) && Scanned(s, a, b, |b.pending|, late)
    ensures TookNext(s, a, b, None, late)
  {
    assert OnePerPlatform(s, b);
    forall x | x in b.pending ensures Waits(s, a, x, late) {
      var j :| 0 <= j < |b.pending| && b.pending[j] == x;
    }
    if b.pending != [] { assert s.queue[b.pending[0]].platform in b.active; }
  }

  // ----- turns -----

  /** What a worker becomes after looking for a board. */
  function AfterLooking(b: Pool, index: Option<nat>): Worker {
    if index.Some? then Probing(index.value) else if b.pending == [] then Left else Seeking
  }

  /** The stretch `t` takes the pool from `a` to `b`. */
  ghost predicate TurnTaken(s: Setting, a: Pool, team: seq<Worker>, t: Turn, b: Pool, next: seq<Worker>) {
    && t.worker < |team|
    && match team[t.worker]
       case Left => b == a && next == team
       case Seeking => exists index :: LooksFor(s, a, team, t, index, b, next)
       case Probing(i) => i < |s.queue| && b == Ended(s, a, i, OutcomeOf(t.answer), Refuses(t.answer)) && next == team[t.worker := Seeking]
  }

  ghost predicate LooksFor(s: Setting, a: Pool, team: seq<Worker>, t: Turn, index: Option<nat>, b: Pool, next: seq<Worker>)
    requires t.worker < |team|
  {
    TookNext(s, a, b, index, t.late) && next == team[t.worker := AfterLooking(b, index)]
  }

  lemma LookedFor(s: Setting, a: Pool, b: Pool, team: seq<Worker>, t: Turn, index: Option<nat>)
    requires t.worker < |team| && team[t.worker].Seeking? && TookNext(s, a, b, index, t.late)
    ensures TurnTaken(s, a, team, t, b, team[t.worker := AfterLooking(b, index)])
  {
    assert LooksFor(s, a, team, t, index, b, team[t.worker := AfterLooking(b, index)]);
  }

  /** The turns lead from `a` to `b`, one after another. */
  ghost predicate Reaches(s: Setting, a: Pool, team: seq<Worker>, turns: seq<Turn>, b: Pool, next: seq<Worker>)
    decreases |turns|
  {
    if turns == [] then b == a && next == team
    else
      var front, t := turns[..|turns|-1], turns[|turns|-1];
      exists mid, midTeam :: Reaches(s, a, team, front, mid, midTeam) && TurnTaken(s, mid, midTeam, t, b, next)
  }

  lemma ReachesOneMore(s: Setting, a: Pool, team: seq<Worker>, turns: seq<Turn>, mid: Pool, midTeam: seq<Worker>, t: Turn,
                       b: Pool, next: seq<Worker>)
    requires Reaches(s, a, team, turns, mid, midTeam) && TurnTaken(s, mid, midTeam, t, b, next)
    ensures Reaches(s, a, team, turns + [t], b, next)
  {
    assert (turns + [t])[..|turns|] == turns;
    hide TurnTaken;
  }

  // ----- where outcomes come from -----

  /** Turn `k` ended the probe of board `i`. */
  ghost predicate EndsProbe(s: Setting, a: Pool, team: seq<Worker>, turns: seq<Turn>, k: nat, i: nat)
    requires k < |turns|
  {
    exists mid: Pool, midTeam: seq<Worker> ::
      && Reaches(s, a, team, turns[..k], mid, midTeam)
      && turns[k].worker < |midTeam| && midTeam[turns[k].worker] == Probing(i)
  }

  /** Turn `k` passed board `i` over with outcome `o`. */
  ghost predicate PassesOver(s: Setting, a: Pool, team: seq<Worker>, turns: seq<Turn>, k: nat, i: nat, o: Outcome)
    requires k < |turns|
  {
    exists mid: Pool, midTeam: seq<Worker> ::
      && Reaches(s, a, team, turns[..k], mid, midTeam)
      && turns[k].worker < |midTeam| && midTeam[turns[k].worker].Seeking? && SkippedFor(s, mid, i, turns[k].late, o)
  }

  /** Every outcome was there before, or is the one of the answer in the turn that ended the board's probe, or was given
      by a turn that had a reason to pass the board over. */
  ghost predicate OutcomesExplained(s: Setting, a: Pool, team: seq<Worker>, turns: seq<Turn>, b: Pool) {
    forall i :: i in b.outcomes ==>
      || (i in a.outcomes && b.outcomes[i] == a.outcomes[i])
      || (exists k :: 0 <= k < |turns| && EndsProbe(s, a, team, turns, k, i) && b.outcomes[i] == OutcomeOf(turns[k].answer))
      || (exists k :: 0 <= k < |turns| && PassesOver(s, a, team, turns, k, i, b.outcomes[i]))
  }

  lemma NothingToExplain(s: Setting, p: Pool, workers: seq<Worker>)
    ensures OutcomesExplained(s, p, workers, [], p)
  {}

  lemma EarlierTurn(s: Setting, a: Pool, team: seq<Worker>, turns: seq<Turn>, t: Turn, k: nat, i: nat, o: Outcome)
    requires k < |turns|
    ensures EndsProbe(s, a, team, turns, k, i) ==> EndsProbe(s, a, team, turns + [t], k, i)
    ensures PassesOver(s, a, team, turns, k, i, o) ==> PassesOver(s, a, team, turns + [t], k, i, o)
  {
    assert (turns + [t])[..k] == turns[..k] && (turns + [t])[k] == turns[k];
    hide Reaches, SkippedFor;
  }

  lemma LastTurn(s: Setting, a: Pool, team: seq<Worker>, turns: seq<Turn>, mid: Pool, midTeam: seq<Worker>, t: Turn,
                 i: nat, o: Outcome)
    requires Reaches(s, a, team, turns, mid, midTeam) && t.worker < |midTeam|
    ensures midTeam[t.worker] == Probing(i) ==> EndsProbe(s, a, team, turns + [t], |turns|, i)
    ensures midTeam[t.worker].Seeking? && SkippedFor(s, mid, i, t.late, o) ==> PassesOver(s, a, team, turns + [t], |turns|, i, o)
  {
    assert (turns + [t])[..|turns|] == turns && (turns + [t])[|turns|] == t;
    hide Reaches, SkippedFor;
  }

  lemma TurnExplains(s: Setting, a: Pool, team: seq<Worker>, turns: seq<Turn>, mid: Pool, midTeam: seq<Worker>, t: Turn, b: Pool)
    requires OutcomesExplained(s, a, team, turns, mid) && Reaches(s, a, team, turns, mid, midTeam) && t.worker < |midTeam|
    requires forall i :: i in b.outcomes ==>
      || (i in mid.outcomes && b.outcomes[i] == mid.outcomes[i])
      || (midTeam[t.worker] == Probing(i) && b.outcomes[i] == OutcomeOf(t.answer))
      || (midTeam[t.worker].Seeking? && SkippedFor(s, mid, i, t.late, b.outcomes[i]))
    ensures OutcomesExplained(s, a, team, turns + [t], b)
  {
    hide Reaches, SkippedFor, OutcomeOf, EndsProbe, PassesOver;
    var all := turns + [t];
    forall i | i in b.outcomes
      ensures || (i in a.outcomes && b.outcomes[i] == a.outcomes[i])
              || (exists k :: 0 <= k < |all| && EndsProbe(s, a, team, all, k, i) && b.outcomes[i] == OutcomeOf(all[k].answer))
              || (exists k :: 0 <= k < |all| && PassesOver(s, a, team, all, k, i, b.outcomes[i]))
    {
      LastTurn(s, a, team, turns, mid, midTeam, t, i, b.outcomes[i]);
      assert all[|turns|] == t;
      if i in mid.outcomes && b.outcomes[i] == mid.outcomes[i] {
        forall k | 0 <= k < |turns|
          ensures EndsProbe(s, a, team, turns, k, i) ==> EndsProbe(s, a, team, all, k, i)
          ensures PassesOver(s, a, team, turns, k, i, b.outcomes[i]) ==> PassesOver(s, a, team, all, k, i, b.outcomes[i])
        {
          EarlierTurn(s, a, team, turns, t, k, i, b.outcomes[i]);
        }
        assert forall k :: 0 <= k < |turns| ==> all[k] == turns[k];
      }
    }
  }

  // ----- workers -----

  function Present(workers: seq<Worker>): nat {
    if workers == [] then 0
    else Present(workers[..|workers|-1]) + if workers[|workers|-1].Left? then 0 else 1
  }

  /** What is still to be done: two stretches per pending board, one per probe in flight, and each worker's leaving. */
  function Effort(p: Pool, workers: seq<Worker>): nat {
    2 * |p.pending| + |p.inFlight| + Present(workers)
  }

  lemma {:induction false} PresentUpdate(workers: seq<Worker>, w: nat, v: Worker)
    requires w < |workers|
    ensures Present(workers[w := v]) + (if workers[w].Left? then 0 else 1) == Present(workers) + if v.Left? then 0 else 1
  {
    var next := workers[w := v];
    if w < |workers| - 1 {
      PresentUpdate(workers[..|workers|-1], w, v);
      assert next[..|next|-1] == workers[..|workers|-1][w := v];
    } else {
      assert next[..|next|-1] == workers[..|workers|-1];
    }
  }

  lemma InFlightIsKnown(s: Setting, p: Pool, workers: seq<Worker>, w: nat)
    requires Valid(s, p) && WorkersMatch(p, workers) && w < |workers| && workers[w].Probing?
    ensures workers[w].board in p.inFlight && workers[w].board < |s.queue|
  {}

  lemma StartMatches(s: Setting, a: Pool, b: Pool, team: seq<Worker>, w: nat, i: nat, late: nat -> bool)
    requires WorkersMatch(a, team) && w < |team| && team[w].Seeking? && TookNext(s, a, b, Some(i), late)
    ensures WorkersMatch(b, team[w := Probing(i)])
    ensures Effort(b, team[w := Probing(i)]) < Effort(a, team)
    ensures |b.log| >= |a.log| && b.log[..|a.log|] == a.log
  {
    var next := team[w := Probing(i)];
    PresentUpdate(team, w, Probing(i));
    assert i in a.pending && Left !in team;
    forall j | j in b.inFlight ensures Probing(j) in next {
      if j == i {
        assert next[w] == Probing(i);
      } else {
        var v :| 0 <= v < |team| && team[v] == Probing(j);
        assert next[v] == Probing(j);
      }
    }
    assert forall v :: 0 <= v < |team| && v != w ==> next[v] == team[v];
    hide Present, PassedOverOnly;
  }

  lemma LeaveMatches(s: Setting, a: Pool, b: Pool, team: seq<Worker>, w: nat, late: nat -> bool)
    requires WorkersMatch(a, team) && w < |team| && team[w].Seeking? && TookNext(s, a, b, None, late) && b.pending == []
    ensures WorkersMatch(b, team[w := Left])
    ensures Effort(b, team[w := Left]) < Effort(a, team)
    ensures |b.log| >= |a.log| && b.log[..|a.log|] == a.log
  {
    var next := team[w := Left];
    PresentUpdate(team, w, Left);
    forall j | j in b.inFlight ensures Probing(j) in next {
      var v :| 0 <= v < |team| && team[v] == Probing(j);
      assert next[v] == Probing(j);
    }
    assert forall v :: 0 <= v < |team| && v != w ==> next[v] == team[v];
    hide Present, PassedOverOnly;
  }

  lemma WaitMatches(s: Setting, a: Pool, b: Pool, team: seq<Worker>, w: nat, late: nat -> bool)
    requires Valid(s, a) && Valid(s, b)
    requires WorkersMatch(a, team) && w < |team| && team[w].Seeking? && TookNext(s, a, b, None, late) && b.pending != []
    ensures WorkersMatch(b, team)
    ensures Effort(b, team) < Effort(a, team) || (b == a && Stuck(s, b, team, w))
    ensures |b.log| >= |a.log| && b.log[..|a.log|] == a.log
  {
    assert b.pending[0] in b.pending;
    if |b.pending| == |a.pending| {
      NothingDropped(s, a, b, late);
    }
    hide Valid;
  }

  /** A scan that dropped nothing changed nothing. */
  lemma NothingDropped(s: Setting, a: Pool, b: Pool, late: nat -> bool)
    requires Partition(s, a) && Partition(s, b) && TookNext(s, a, b, None, late) && |b.pending| == |a.pending|
    ensures b == a
  {
    SameSortedSequence(a.pending, b.pending);
    assert forall i :: 0 <= i < |s.queue| && i !in a.outcomes ==> i in a.pending || i in a.inFlight;
    assert forall i :: i in b.outcomes ==> i in a.outcomes;
    assert b.outcomes == a.outcomes;
  }

  lemma {:induction false} SameSortedSequence(a: seq<nat>, b: seq<nat>)
    requires |a| == |b| && forall x :: x in b ==> x in a
    requires forall i, j :: 0 <= i < j < |a| ==> a[i] < a[j]
    requires forall i, j :: 0 <= i < j < |b| ==> b[i] < b[j]
    ensures a == b
  {
    if a != [] {
      var m, n := a[|a|-1], b[|b|-1];
      var sa, sb := a[..|a|-1], b[..|b|-1];
      assert n in b;
      var k :| 0 <= k < |a| && a[k] == n;
      forall x | x in sb ensures x in sa {
        var i :| 0 <= i < |sb| && sb[i] == x;
        assert b[i] == x && x in b;
        var j :| 0 <= j < |a| && a[j] == x;
        assert x < n <= m;
        assert sa[j] == x;
      }
      assert k < |a| - 1 ==> sa[k] == n && n in sa;
      SameSortedSequence(sa, sb);
    }
  }

  lemma EndMatches(s: Setting, a: Pool, team: seq<Worker>, w: nat, o: Outcome, refused: bool)
    requires Valid(s, a) && WorkersMatch(a, team) && w < |team| && team[w].Probing? && team[w].board < |s.queue|
    ensures var b := Ended(s, a, team[w].board, o, refused);
      && WorkersMatch(b, team[w := Seeking]) && Effort(b, team[w := Seeking]) < Effort(a, team)
      && |b.log| >= |a.log| && b.log[..|a.log|] == a.log
  {
    var i := team[w].board;
    var b, next := Ended(s, a, i, o, refused), team[w := Seeking];
    PresentUpdate(team, w, Seeking);
    assert i in a.inFlight;
    assert |a.inFlight - {i}| == |a.inFlight| - 1;
    forall j | j in b.inFlight ensures Probing(j) in next {
      var v :| 0 <= v < |team| && team[v] == Probing(j);
      assert next[v] == Probing(j);
    }
    assert forall v :: 0 <= v < |team| && v != w ==> next[v] == team[v];
    hide Valid, Present;
  }

  // ----- what the pool guarantees -----

  /** Nothing pending or in flight; every board has an outcome, and those that were contacted were contacted once. */
  ghost predicate Settled(s: Setting, p: Pool) {
    && p.pending == [] && p.inFlight == {} && p.active == {}
    && (forall i :: 0 <= i < |s.queue| <==> i in p.outcomes)
    && (forall a, b :: 0 <= a < b < |p.log| && p.log[a].Start? && p.log[b].Start? ==> p.log[a].board != p.log[b].board)
  }

  predicate AllLeft(workers: seq<Worker>) {
    forall w :: w in workers ==> w.Left?
  }

  lemma AllLeftIsSettled(s: Setting, p: Pool, workers: seq<Worker>)
    requires Valid(s, p) && WorkersMatch(p, workers) && |workers| > 0 && AllLeft(workers)
    ensures Settled(s, p)
  {
    assert workers[0] in workers;
    assert forall i :: i in p.inFlight ==> Probing(i) in workers;
    assert forall i :: i !in p.inFlight;
    assert OnePerPlatform(s, p);
    assert forall q :: q !in p.active;
  }

  /** No deadlock: while a worker has not left, some worker's turn makes progress. Either a probe is in flight, or a
      worker looking for a board finds one, passes some over for good, or finds nothing pending and leaves. */
  lemma SomebodyCanProceed(s: Setting, p: Pool, workers: seq<Worker>)
    requires Valid(s, p) && WorkersMatch(p, workers) && !AllLeft(workers)
    ensures (exists w :: w in workers && w.Probing?)
            || (Seeking in workers && (p.pending == [] || s.queue[p.pending[0]].platform !in p.active))
  {
    var w :| w in workers && !w.Left?;
    if w.Seeking? && p.pending != [] && s.queue[p.pending[0]].platform in p.active {
      var i :| i in p.inFlight && i < |s.queue| && s.queue[i].platform == s.queue[p.pending[0]].platform;
      assert Probing(i) in workers;
    }
  }

  // ----- fair interleavings end -----

  /** A worker whose turn changes nothing: it has left, or it looks for a board while every one that is pending waits for
      a platform that is being contacted. */
  predicate Stuck(s: Setting, p: Pool, workers: seq<Worker>, w: nat) {
    && w < |workers|
    && (workers[w].Left?
        || (&& workers[w].Seeking? && p.inFlight != {}
            && p.pending != [] && p.pending[0] < |s.queue| && s.queue[p.pending[0]].platform in p.active))
  }

  datatype Rounds = Rounds(complete: nat, seen: set<nat>)

  /** How many times over each of `n` workers had a turn, and which of them had one since. */
  ghost function RoundsIn(turns: seq<Turn>, n: nat): Rounds {
    if turns == [] then Rounds(0, {}) else OneMoreTurn(RoundsIn(turns[..|turns|-1], n), turns[|turns|-1].worker, n)
  }

  ghost function OneMoreTurn(r: Rounds, w: nat, n: nat): Rounds {
    if forall v: nat :: v < n ==> v in r.seen + {w} then Rounds(r.complete + 1, {})
    else Rounds(r.complete, r.seen + {w})
  }

  lemma RoundsPush(turns: seq<Turn>, t: Turn, n: nat)
    ensures RoundsIn(turns + [t], n) == OneMoreTurn(RoundsIn(turns, n), t.worker, n)
  {
    assert (turns + [t])[..|turns|] == turns;
  }

  /** Each complete round has used up effort, and so has the present one unless everyone seen in it is stuck. */
  ghost predicate OnPace(s: Setting, p: Pool, workers: seq<Worker>, effort: nat, r: Rounds) {
    || AllLeft(workers)
    || (&& Effort(p, workers) + r.complete <= effort
        && (Effort(p, workers) + r.complete < effort || forall w :: w in r.seen ==> Stuck(s, p, workers, w)))
  }

  lemma PaceBegins(s: Setting, p: Pool, workers: seq<Worker>)
    ensures OnPace(s, p, workers, Effort(p, workers), RoundsIn([], |workers|))
  {}

  lemma {:induction false} PresentZeroIff(workers: seq<Worker>)
    ensures Present(workers) == 0 <==> AllLeft(workers)
  {
    if workers != [] {
      var front, last := workers[..|workers|-1], workers[|workers|-1];
      PresentZeroIff(front);
      assert workers == front + [last];
      assert last in workers;
    }
  }

  lemma AllLeftHasNoEffort(s: Setting, p: Pool, workers: seq<Worker>)
    requires Valid(s, p) && WorkersMatch(p, workers) && |workers| > 0 && AllLeft(workers)
    ensures Effort(p, workers) == 0
  {
    AllLeftIsSettled(s, p, workers);
    PresentZeroIff(workers);
  }

  /** The round in which nothing moved was the last one. */
  lemma EverybodyStuck(s: Setting, p: Pool, workers: seq<Worker>)
    requires Valid(s, p) && WorkersMatch(p, workers) && forall w: nat :: w < |workers| ==> Stuck(s, p, workers, w)
    ensures AllLeft(workers)
  {
    forall w | w in workers
      ensures w.Left? || (w.Seeking? && p.pending != [] && p.pending[0] < |s.queue| && s.queue[p.pending[0]].platform in p.active)
    {
      var k: nat :| k < |workers| && workers[k] == w;
      assert Stuck(s, p, workers, k);
    }
    hide Valid, WorkersMatch;
    if !AllLeft(workers) { SomebodyCanProceed(s, p, workers); }
  }

  lemma EffortFellKeepsPace(s: Setting, a: Pool, team: seq<Worker>, b: Pool, next: seq<Worker>, effort: nat, r: Rounds, w: nat)
    requires OnPace(s, a, team, effort, r) && !AllLeft(team) && Effort(b, next) < Effort(a, team)
    ensures OnPace(s, b, next, effort, OneMoreTurn(r, w, |team|))
  {
    hide Effort, Stuck, AllLeft;
  }

  lemma TurnKeepsPace(s: Setting, a: Pool, team: seq<Worker>, b: Pool, next: seq<Worker>, effort: nat,
                      turns: seq<Turn>, t: Turn)
    requires Valid(s, a) && WorkersMatch(a, team) && t.worker < |team| == |next|
    requires OnPace(s, a, team, effort, RoundsIn(turns, |team|))
    requires Effort(b, next) < Effort(a, team) || (b == a && next == team && Stuck(s, a, team, t.worker))
    ensures OnPace(s, b, next, effort, RoundsIn(turns + [t], |next|))
  {
    hide *;
    var r := RoundsIn(turns, |team|);
    RoundsPush(turns, t, |team|);
    if AllLeft(team) {
      AllLeftHasNoEffort(s, a, team);
      AllLeftIsOnPace(s, b, next, effort, RoundsIn(turns + [t], |next|));
    } else if b == a && next == team {
      if forall v: nat :: v < |team| ==> v in r.seen + {t.worker} { LastStuckRound(s, a, team, effort, r, t.worker); }
      StuckKeepsPace(s, a, team, effort, r, t.worker);
    } else {
      EffortFellKeepsPace(s, a, team, b, next, effort, r, t.worker);
    }
  }

  lemma AllLeftIsOnPace(s: Setting, p: Pool, workers: seq<Worker>, effort: nat, r: Rounds)
    requires AllLeft(workers)
    ensures OnPace(s, p, workers, effort, r)
  {}

  lemma LastStuckRound(s: Setting, p: Pool, workers: seq<Worker>, effort: nat, r: Rounds, w: nat)
    requires Valid(s, p) && WorkersMatch(p, workers) && OnPace(s, p, workers, effort, r) && Stuck(s, p, workers, w)
    requires forall v: nat :: v < |workers| ==> v in r.seen + {w}
    ensures Effort(p, workers) + r.complete == effort ==> AllLeft(workers)
  {
    hide Effort, Valid, WorkersMatch, AllLeft, Stuck;
    if Effort(p, workers) + r.complete == effort && !AllLeft(workers) {
      forall v: nat | v < |workers| ensures Stuck(s, p, workers, v) {
        assert v in r.seen + {w};
      }
      EverybodyStuck(s, p, workers);
    }
  }

  lemma StuckKeepsPace(s: Setting, p: Pool, workers: seq<Worker>, effort: nat, r: Rounds, w: nat)
    requires OnPace(s, p, workers, effort, r) && Stuck(s, p, workers, w)
    requires Effort(p, workers) + r.complete == effort && (forall v: nat :: v < |workers| ==> v in r.seen + {w}) ==> AllLeft(workers)
    ensures OnPace(s, p, workers, effort, OneMoreTurn(r, w, |workers|))
  {
    hide Effort, Stuck, AllLeft;
  }

  lemma PaceEnds(s: Setting, p: Pool, workers: seq<Worker>, effort: nat, r: Rounds)
    requires OnPace(s, p, workers, effort, r)
    ensures r.complete >= effort ==> AllLeft(workers)
  {
    PresentZeroIff(workers);
  }

  /** Once a platform has refused, no board of it is started any more. */
  lemma NoProbeAfterRefusal(s: Setting, p: Pool, a: nat, b: nat)
    requires Valid(s, p) && a < b < |p.log| && p.log[a].Refusal? && p.log[b].Start?
    ensures p.log[b].board < |s.queue| && s.queue[p.log[b].board].platform != p.log[a].platform
  {
    assert History(s, p);
    hide Partition, OnePerPlatform;
  }

  predicate ShowsAbsence(o: Outcome) {
    o.NotFound? || o.GoneOffHost? || o.WallOwnHost?
  }

  /** Evidence of absence comes from a contact this pool made, before any refusal by that platform. */
  lemma AbsenceWasObserved(s: Setting, p: Pool, i: nat)
    requires Valid(s, p) && i in p.outcomes && ShowsAbsence(p.outcomes[i])
    ensures exists a :: 0 <= a < |p.log| && p.log[a] == Start(i)
    ensures forall a, b :: 0 <= a < b < |p.log| && p.log[a].Refusal? && p.log[b] == Start(i) ==>
              i < |s.queue| && s.queue[i].platform != p.log[a].platform
  {
    assert Start(i) in p.log && History(s, p);
    hide Partition, OnePerPlatform;
  }
}

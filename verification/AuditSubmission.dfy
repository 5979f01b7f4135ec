/** Submit once: a paid query is started again only after the previous one was verified dead. */
module AuditSubmission {
  import opened Basics
  import opened AuditModel
  import opened AuditWalk

  /** Every token AWS knows was drawn by this program, and belongs to one execution. */
  ghost predicate TokensKnown(w: World) {
    && (forall t :: t in w.aws.holds ==> t < w.minted && w.aws.holds[t] < |w.aws.log|)
    && (forall t, u :: t in w.aws.holds && u in w.aws.holds && w.aws.holds[t] == w.aws.holds[u] ==> t == u)
  }

  ghost predicate TokensPrivate(w: World) {
    && (forall i :: i in w.db.checkpoints && w.db.checkpoints[i].token.Some? ==>
          w.db.checkpoints[i].token.value < w.minted)
    && (forall i, j ::
          i in w.db.checkpoints && j in w.db.checkpoints && i != j && w.db.checkpoints[i].token.Some? ==>
          w.db.checkpoints[i].token != w.db.checkpoints[j].token)
  }

  /** The execution that the stored token stands for in AWS, if AWS ever saw the token. */
  function Behind(aws: Aws, token: Option<Token>): Option<Execution> {
    if token.Some? && token.value in aws.holds then Some(aws.holds[token.value]) else None
  }

  /** A stored execution id is the one AWS holds for the stored token; that execution asks for this very
      pattern and index, and has not been given up. */
  ghost predicate RowMatchesAws(w: World, i: Item)
    requires i in w.db.checkpoints
  {
    var cp := w.db.checkpoints[i];
    var behind := Behind(w.aws, cp.token);
    && (cp.execution.Some? ==> behind == cp.execution)
    && (behind.Some? ==>
          && behind.value < |w.aws.log| && w.aws.log[behind.value].item == i
          && w.aws.log[behind.value].indexId == cp.indexId && behind.value !in w.verdicts)
  }

  ghost predicate RowsMatchAws(w: World) {
    forall i :: i in w.db.checkpoints ==> RowMatchesAws(w, i)
  }

  /** An execution not given up is behind the row's token, or belongs to an index already passed. */
  ghost predicate Accounted(p: Plan, w: World, e: Execution)
    requires e < |w.aws.log|
  {
    var q := w.aws.log[e];
    && q.item in w.db.checkpoints
    && (var cp := w.db.checkpoints[q.item];
        var order := AuditIndexOrder(p, q.item.platform);
        || (q.indexId == cp.indexId && Behind(w.aws, cp.token) == Some(e))
        || (q.indexId in order && IndexOf(order, q.indexId) < IndexOf(order, cp.indexId)))
  }

  ghost predicate AllAccounted(p: Plan, w: World) {
    forall e :: 0 <= e < |w.aws.log| && e !in w.verdicts ==> Accounted(p, w, e)
  }

  ghost predicate Twins(aws: Aws, e: Execution, f: Execution)
    requires e < |aws.log| && f < |aws.log|
  {
    aws.log[e].item == aws.log[f].item && aws.log[e].indexId == aws.log[f].indexId
  }

  ghost predicate OnlyOneAlive(w: World) {
    forall e, f :: 0 <= e < f < |w.aws.log| && e !in w.verdicts && f !in w.verdicts ==> !Twins(w.aws, e, f)
  }

  /** Only verified dead executions are given up. */
  ghost predicate VerdictsAreDead(w: World) {
    forall e :: e in w.verdicts ==> e < |w.aws.log| && w.aws.log[e].status.Doomed?
  }

  /** What the worker knows about its query is what AWS holds. */
  ghost predicate WorkerMatchesAws(w: World) {
    match w.worker
    case TokenSaved(_, seen) => seen.execution.None? && seen.token.Some?
    case Accepted(_, seen, e) => seen.execution.None? && Behind(w.aws, seen.token) == Some(e)
    case Failed(_, seen, restart) =>
      restart ==> seen.execution.Some? && seen.execution.value < |w.aws.log| && w.aws.log[seen.execution.value].status.Doomed?
    case _ => true
  }

  ghost predicate SubmittedOnce(p: Plan, w: World) {
    && TokensKnown(w) && TokensPrivate(w) && RowsMatchAws(w) && AllAccounted(p, w)
    && OnlyOneAlive(w) && VerdictsAreDead(w) && WorkerMatchesAws(w)
  }

  // ----- steps that touch nothing of this -----

  ghost predicate SameRows(db: Database, next: Database) {
    && next.checkpoints.Keys == db.checkpoints.Keys
    && forall i :: i in db.checkpoints ==>
        && next.checkpoints[i].indexId == db.checkpoints[i].indexId
        && next.checkpoints[i].token == db.checkpoints[i].token
        && next.checkpoints[i].execution == db.checkpoints[i].execution
  }

  /** Queries keep their question, and a dead one stays dead. */
  ghost predicate SameQueries(aws: Aws, next: Aws) {
    && next.holds == aws.holds && |next.log| == |aws.log|
    && forall e :: 0 <= e < |aws.log| ==>
        && next.log[e].item == aws.log[e].item && next.log[e].indexId == aws.log[e].indexId
        && (aws.log[e].status.Doomed? ==> next.log[e].status.Doomed?)
  }

  lemma FrameRows(w: World, next: World)
    requires RowsMatchAws(w) && SameRows(w.db, next.db) && SameQueries(w.aws, next.aws) && next.verdicts == w.verdicts
    ensures RowsMatchAws(next)
  {
    forall i | i in next.db.checkpoints ensures RowMatchesAws(next, i) {
      assert RowMatchesAws(w, i);
    }
  }

  lemma FrameAccounted(p: Plan, w: World, next: World)
    requires AllAccounted(p, w) && SameRows(w.db, next.db) && SameQueries(w.aws, next.aws) && next.verdicts == w.verdicts
    ensures AllAccounted(p, next)
  {
    hide AuditIndexOrder, IndexOf;
    forall e | 0 <= e < |next.aws.log| && e !in next.verdicts ensures Accounted(p, next, e) {
      assert Accounted(p, w, e);
    }
  }

  lemma FrameAlive(w: World, next: World)
    requires OnlyOneAlive(w) && SameQueries(w.aws, next.aws) && next.verdicts == w.verdicts
    ensures OnlyOneAlive(next)
  {
    forall e, f | 0 <= e < f < |next.aws.log| && e !in next.verdicts && f !in next.verdicts
      ensures !Twins(next.aws, e, f)
    {
      assert !Twins(w.aws, e, f);
    }
  }

  lemma FrameOnce(p: Plan, w: World, next: World)
    requires SubmittedOnce(p, w) && WorkerMatchesAws(next)
    requires SameRows(w.db, next.db) && SameQueries(w.aws, next.aws) && next.verdicts == w.verdicts && next.minted == w.minted
    ensures SubmittedOnce(p, next)
  {
    FrameRows(w, next);
    FrameAccounted(p, w, next);
    FrameAlive(w, next);
    hide RowsMatchAws, AllAccounted, OnlyOneAlive;
  }

  ghost predicate TouchesQueries(w: World, s: Step) {
    || s.Load? || s.SaveToken? || s.CallAws? || s.SaveExecution? || s.EarnReceipt?
    || (s.RecordFailure? && w.worker.Failed? && w.worker.restartQuery)
  }

  lemma QuietStepRows(p: Plan, w: World, s: Step)
    requires |p.window| > 0 && Enabled(p, w, s) && !TouchesQueries(w, s)
    ensures SameRows(w.db, Apply(p, w, s).db)
  {
    hide CandidatesOf, WithCandidates, UnresolvedCount, AuditIndexOrder, IndexOf, ProofComplete, AuditCheckpointComplete;
  }

  lemma QuietStepAws(p: Plan, w: World, s: Step)
    requires |p.window| > 0 && Enabled(p, w, s) && !TouchesQueries(w, s)
    ensures var next := Apply(p, w, s);
      SameQueries(w.aws, next.aws) && next.verdicts == w.verdicts && next.minted == w.minted
  {
    hide CandidatesOf, WithCandidates, UnresolvedCount, AuditIndexOrder, IndexOf, ProofComplete, AuditCheckpointComplete;
  }

  lemma QuietStepWorker(p: Plan, w: World, s: Step)
    requires |p.window| > 0 && Enabled(p, w, s) && !TouchesQueries(w, s) && WorkerMatchesAws(w)
    ensures WorkerMatchesAws(Apply(p, w, s))
  {
    hide CandidatesOf, WithCandidates, UnresolvedCount, AuditIndexOrder, IndexOf, ProofComplete, AuditCheckpointComplete;
  }

  lemma QuietStepOnce(p: Plan, w: World, s: Step)
    requires |p.window| > 0 && Enabled(p, w, s) && !TouchesQueries(w, s) && SubmittedOnce(p, w)
    ensures SubmittedOnce(p, Apply(p, w, s))
  {
    QuietStepRows(p, w, s);
    QuietStepAws(p, w, s);
    QuietStepWorker(p, w, s);
    hide *;
    FrameOnce(p, w, Apply(p, w, s));
  }

  // ----- one row is rewritten, AWS is not -----

  /** Row `i` becomes something else; AWS and the other rows stay, and at most the execution behind the old
      row is given up. */
  ghost predicate RowReplaced(w: World, next: World, i: Item) {
    && i in w.db.checkpoints && i in next.db.checkpoints
    && next.db.checkpoints == w.db.checkpoints[i := next.db.checkpoints[i]]
    && next.aws == w.aws && w.minted <= next.minted && w.verdicts <= next.verdicts
    && (forall e :: e in next.verdicts && e !in w.verdicts ==> Behind(w.aws, w.db.checkpoints[i].token) == Some(e))
  }

  lemma ReplacedPrivate(w: World, next: World, i: Item)
    requires TokensPrivate(w) && RowReplaced(w, next, i)
    requires var token := next.db.checkpoints[i].token;
      token.None? || token == w.db.checkpoints[i].token || (token == Some(w.minted) && w.minted < next.minted)
    ensures TokensPrivate(next)
  {}

  lemma ReplacedRows(w: World, next: World, i: Item)
    requires TokensKnown(w) && TokensPrivate(w) && RowsMatchAws(w) && RowReplaced(w, next, i) && RowMatchesAws(next, i)
    ensures RowsMatchAws(next)
  {
    forall j | j in next.db.checkpoints ensures RowMatchesAws(next, j) {
      assert RowMatchesAws(w, j);
    }
  }

  lemma ReplacedAccounted(p: Plan, w: World, next: World, i: Item)
    requires AllAccounted(p, w) && RowReplaced(w, next, i)
    requires var old_, cp := w.db.checkpoints[i], next.db.checkpoints[i];
      var order, behind := AuditIndexOrder(p, i.platform), Behind(w.aws, old_.token);
      || (cp.indexId == old_.indexId
          && (behind == Behind(w.aws, cp.token) || behind.None? || behind.value in next.verdicts))
      || (old_.indexId in order && IndexOf(order, old_.indexId) < IndexOf(order, cp.indexId))
    ensures AllAccounted(p, next)
  {
    hide AuditIndexOrder, IndexOf;
    forall e | 0 <= e < |next.aws.log| && e !in next.verdicts ensures Accounted(p, next, e) {
      assert Accounted(p, w, e);
    }
  }

  lemma ReplacedOnce(p: Plan, w: World, next: World, i: Item)
    requires SubmittedOnce(p, w) && RowReplaced(w, next, i)
    requires TokensPrivate(next) && RowsMatchAws(next) && AllAccounted(p, next)
    requires VerdictsAreDead(next) && WorkerMatchesAws(next)
    ensures SubmittedOnce(p, next)
  {
    hide RowsMatchAws, AllAccounted, TokensPrivate, VerdictsAreDead, WorkerMatchesAws;
  }

  lemma SaveTokenOnce(p: Plan, w: World)
    requires |p.window| > 0 && Enabled(p, w, SaveToken) && Attentive(p, w) && SubmittedOnce(p, w)
    ensures SubmittedOnce(p, Apply(p, w, SaveToken))
  {
    var next, i := Apply(p, w, SaveToken), w.worker.item;
    assert RowReplaced(w, next, i);
    assert RowMatchesAws(w, i) && RowMatchesAws(next, i);
    assert WorkerMatchesAws(next);
    assert Behind(w.aws, w.db.checkpoints[i].token).None?;
    hide Apply, Enabled, RowMatchesAws, AuditIndexOrder, IndexOf;
    ReplacedPrivate(w, next, i);
    ReplacedRows(w, next, i);
    ReplacedAccounted(p, w, next, i);
    assert VerdictsAreDead(next);
    hide *;
    ReplacedOnce(p, w, next, i);
  }

  lemma SaveExecutionOnce(p: Plan, w: World, retryAt: int, acknowledged: bool)
    requires |p.window| > 0 && Enabled(p, w, SaveExecution(retryAt, acknowledged)) && Attentive(p, w) && SubmittedOnce(p, w)
    ensures SubmittedOnce(p, Apply(p, w, SaveExecution(retryAt, acknowledged)))
  {
    var next, i := Apply(p, w, SaveExecution(retryAt, acknowledged)), w.worker.item;
    assert RowReplaced(w, next, i);
    assert RowMatchesAws(w, i) && RowMatchesAws(next, i);
    assert WorkerMatchesAws(next);
    hide Apply, Enabled, RowMatchesAws, AuditIndexOrder, IndexOf;
    ReplacedPrivate(w, next, i);
    ReplacedRows(w, next, i);
    ReplacedAccounted(p, w, next, i);
    assert VerdictsAreDead(next);
    hide *;
    ReplacedOnce(p, w, next, i);
  }

  lemma RestartOnce(p: Plan, w: World, retryAt: int)
    requires |p.window| > 0 && Enabled(p, w, RecordFailure(retryAt)) && w.worker.restartQuery
    requires Attentive(p, w) && SubmittedOnce(p, w)
    ensures SubmittedOnce(p, Apply(p, w, RecordFailure(retryAt)))
  {
    var next, i := Apply(p, w, RecordFailure(retryAt)), w.worker.item;
    assert RowMatchesAws(w, i);
    assert RowReplaced(w, next, i);
    assert RowMatchesAws(next, i);
    assert WorkerMatchesAws(next) && VerdictsAreDead(next);
    hide Apply, Enabled, RowMatchesAws, AuditIndexOrder, IndexOf, VerdictsAreDead, WorkerMatchesAws;
    ReplacedPrivate(w, next, i);
    ReplacedRows(w, next, i);
    ReplacedAccounted(p, w, next, i);
    hide *;
    ReplacedOnce(p, w, next, i);
  }

  /** After a receipt the row asks for the next index with no query of its own, or is left as it is. */
  lemma ReceiptRow(p: Plan, w: World, now: int)
    requires Good(p) && Enabled(p, w, EarnReceipt(now)) && Attentive(p, w) && PatternWalk(p, w.db, w.worker.item)
    requires RowMatchesAws(w, w.worker.item)
    ensures var next, i := Apply(p, w, EarnReceipt(now)), w.worker.item;
      var before, after, order := w.db.checkpoints[i], next.db.checkpoints[i], AuditIndexOrder(p, i.platform);
      && RowMatchesAws(next, i)
      && (|| (after.indexId == before.indexId && after.token == before.token)
          || (after.token.None? && before.indexId in order
              && IndexOf(order, before.indexId) < IndexOf(order, after.indexId)))
  {
    var next, i := Apply(p, w, EarnReceipt(now)), w.worker.item;
    ReceiptMovesOn(p, i, w.db.checkpoints[i], now);
    assert next.db.checkpoints[i] == AfterReceipt(p, i, w.db.checkpoints[i], now);
    assert next.aws == w.aws && next.verdicts == w.verdicts;
  }

  lemma ReceiptReplaces(p: Plan, w: World, now: int)
    requires |p.window| > 0 && Enabled(p, w, EarnReceipt(now)) && Attentive(p, w)
    ensures var next := Apply(p, w, EarnReceipt(now));
      RowReplaced(w, next, w.worker.item) && WorkerMatchesAws(next) && next.verdicts == w.verdicts
  {
    hide AfterReceipt, AuditIndexOrder, IndexOf;
  }

  lemma ReceiptOnce(p: Plan, w: World, now: int)
    requires Good(p) && Enabled(p, w, EarnReceipt(now)) && Attentive(p, w) && PatternsWalk(p, w.db) && SubmittedOnce(p, w)
    ensures SubmittedOnce(p, Apply(p, w, EarnReceipt(now)))
  {
    var next, i := Apply(p, w, EarnReceipt(now)), w.worker.item;
    assert PatternWalk(p, w.db, i) && RowMatchesAws(w, i);
    ReceiptRow(p, w, now);
    ReceiptReplaces(p, w, now);
    hide Apply, Enabled, RowMatchesAws, AuditIndexOrder, IndexOf, WorkerMatchesAws, PatternWalk, Good;
    ReplacedPrivate(w, next, i);
    ReplacedRows(w, next, i);
    ReplacedAccounted(p, w, next, i);
    assert VerdictsAreDead(next);
    hide *;
    ReplacedOnce(p, w, next, i);
  }

  // ----- a row appears, AWS answers -----

  lemma LoadOnce(p: Plan, w: World, i: Item)
    requires |p.window| > 0 && Enabled(p, w, Load(i)) && SubmittedOnce(p, w)
    ensures SubmittedOnce(p, Apply(p, w, Load(i)))
  {
    var next := Apply(p, w, Load(i));
    assert next.aws == w.aws && next.verdicts == w.verdicts && next.minted == w.minted;
    if i in w.db.checkpoints {
      assert next.db.checkpoints == w.db.checkpoints;
      assert WorkerMatchesAws(next);
      hide *;
      FrameSame(p, w, next);
    } else {
      assert next.db.checkpoints.Keys == w.db.checkpoints.Keys + {i};
      assert next.db.checkpoints[i].token.None? && next.db.checkpoints[i].execution.None?;
      hide Apply, Enabled, AuditIndexOrder, IndexOf;
      forall j | j in next.db.checkpoints ensures RowMatchesAws(next, j) {
        if j != i { assert RowMatchesAws(w, j); }
      }
      forall e | 0 <= e < |next.aws.log| && e !in next.verdicts ensures Accounted(p, next, e) {
        assert Accounted(p, w, e);
      }
    }
  }

  lemma FrameSame(p: Plan, w: World, next: World)
    requires SubmittedOnce(p, w) && WorkerMatchesAws(next)
    requires next.db.checkpoints == w.db.checkpoints && next.aws == w.aws && next.verdicts == w.verdicts && next.minted == w.minted
    ensures SubmittedOnce(p, next)
  {
    assert SameRows(w.db, next.db) && SameQueries(w.aws, next.aws);
    hide *;
    FrameOnce(p, w, next);
  }

  /** AWS starts a query for a token it has not seen. */
  ghost predicate Started(w: World, next: World, i: Item, token: Token) {
    && next.db == w.db && next.verdicts == w.verdicts && next.minted == w.minted
    && i in w.db.checkpoints && w.db.checkpoints[i].token == Some(token) && token !in w.aws.holds
    && next.aws.holds == w.aws.holds[token := |w.aws.log|]
    && next.aws.log == w.aws.log + [Query(i, w.db.checkpoints[i].indexId, InFlight)]
  }

  lemma StartedBehind(w: World, next: World, i: Item, token: Token, other: Option<Token>)
    requires Started(w, next, i, token)
    ensures Behind(next.aws, other) == if other == Some(token) then Some(|w.aws.log|) else Behind(w.aws, other)
  {}

  lemma StartedKnown(w: World, next: World, i: Item, token: Token)
    requires Started(w, next, i, token) && TokensKnown(w) && TokensPrivate(w)
    ensures TokensKnown(next)
  {}

  lemma StartedRows(w: World, next: World, i: Item, token: Token)
    requires Started(w, next, i, token) && RowsMatchAws(w) && TokensPrivate(w) && VerdictsAreDead(w)
    requires w.db.checkpoints[i].execution.None?
    ensures RowsMatchAws(next)
  {
    forall j | j in next.db.checkpoints ensures RowMatchesAws(next, j) {
      assert RowMatchesAws(w, j);
      StartedBehind(w, next, i, token, w.db.checkpoints[j].token);
    }
  }

  lemma StartedAccounted(p: Plan, w: World, next: World, i: Item, token: Token)
    requires Started(w, next, i, token) && AllAccounted(p, w) && TokensPrivate(w)
    ensures AllAccounted(p, next)
  {
    hide AuditIndexOrder, IndexOf;
    forall e | 0 <= e < |next.aws.log| && e !in next.verdicts ensures Accounted(p, next, e) {
      StartedBehind(w, next, i, token, Some(token));
      if e < |w.aws.log| {
        assert Accounted(p, w, e);
        StartedBehind(w, next, i, token, w.db.checkpoints[w.aws.log[e].item].token);
      }
    }
  }

  lemma StartedAlive(p: Plan, w: World, next: World, i: Item, token: Token)
    requires Started(w, next, i, token) && AllAccounted(p, w) && OnlyOneAlive(w)
    ensures OnlyOneAlive(next)
  {
    hide AuditIndexOrder, IndexOf;
    forall e, f | 0 <= e < f < |next.aws.log| && e !in next.verdicts && f !in next.verdicts
      ensures !Twins(next.aws, e, f)
    {
      if f < |w.aws.log| { assert !Twins(w.aws, e, f); }
      else { assert Accounted(p, w, e); }
    }
  }

  lemma StartedOnce(p: Plan, w: World, next: World, i: Item, token: Token)
    requires Started(w, next, i, token) && SubmittedOnce(p, w) && w.db.checkpoints[i].execution.None?
    requires WorkerMatchesAws(next) && VerdictsAreDead(next)
    ensures SubmittedOnce(p, next)
  {
    StartedKnown(w, next, i, token);
    StartedRows(w, next, i, token);
    StartedAccounted(p, w, next, i, token);
    StartedAlive(p, w, next, i, token);
    hide RowsMatchAws, AllAccounted, OnlyOneAlive, TokensKnown, VerdictsAreDead, WorkerMatchesAws;
  }

  lemma CallAwsOnce(p: Plan, w: World)
    requires |p.window| > 0 && Enabled(p, w, CallAws) && Attentive(p, w) && SubmittedOnce(p, w)
    ensures SubmittedOnce(p, Apply(p, w, CallAws))
  {
    var next, i := Apply(p, w, CallAws), w.worker.item;
    var token := w.worker.seen.token.value;
    assert WorkerMatchesAws(next);
    if token in w.aws.holds {
      assert next.db == w.db && next.aws == w.aws && next.verdicts == w.verdicts && next.minted == w.minted;
      hide *;
      FrameSame(p, w, next);
    } else {
      assert Started(w, next, i, token);
      assert VerdictsAreDead(next);
      assert w.db.checkpoints[i].execution.None?;
      hide *;
      StartedOnce(p, w, next, i, token);
    }
  }

  // ----- every step -----

  lemma InitialOnce(p: Plan)
    requires |p.window| > 0
    ensures SubmittedOnce(p, InitialWorld(p))
  {}

  lemma StepKeepsOnce(p: Plan, w: World, s: Step)
    requires Good(p) && Enabled(p, w, s) && Attentive(p, w) && PatternsWalk(p, w.db) && SubmittedOnce(p, w)
    ensures SubmittedOnce(p, Apply(p, w, s))
  {
    if !TouchesQueries(w, s) {
      QuietStepOnce(p, w, s);
    } else {
      hide SubmittedOnce, Attentive, Apply, PatternsWalk;
      match s
      case Load(i) => LoadOnce(p, w, i);
      case SaveToken => SaveTokenOnce(p, w);
      case CallAws => CallAwsOnce(p, w);
      case SaveExecution(retryAt, acknowledged) => SaveExecutionOnce(p, w, retryAt, acknowledged);
      case RecordFailure(retryAt) => RestartOnce(p, w, retryAt);
      case EarnReceipt(now) => ReceiptOnce(p, w, now);
    }
  }

  // ----- what it means for the bill -----

  function Paid(w: World, i: Item, x: IndexId): set<Execution> {
    set e | 0 <= e < |w.aws.log| && w.aws.log[e].item == i && w.aws.log[e].indexId == x
  }

  /** For each pattern and index the number of distinct paid executions is at most one more than the number
      that were verified failed, cancelled or expired, and each of those really is dead. */
  lemma PaidExecutionsAreBounded(p: Plan, w: World, i: Item, x: IndexId)
    requires SubmittedOnce(p, w)
    ensures |Paid(w, i, x)| <= 1 + |Paid(w, i, x) * w.verdicts|
    ensures forall e :: e in Paid(w, i, x) * w.verdicts ==> w.aws.log[e].status.Doomed?
  {
    var alive := Paid(w, i, x) - w.verdicts;
    forall e, f | e in alive && f in alive ensures e == f {
      assert Twins(w.aws, e, f) && Twins(w.aws, f, e);
    }
    AtMostOneElement(alive);
    assert Paid(w, i, x) == alive + Paid(w, i, x) * w.verdicts;
  }

  lemma AtMostOneElement<T>(s: set<T>)
    requires forall x, y :: x in s && y in s ==> x == y
    ensures |s| <= 1
  {
    if s != {} {
      var x :| x in s;
      assert s == {x};
    }
  }

  /** A stored execution id is always the one AWS holds for the stored token, asked for this pattern and index. */
  lemma StoredExecutionIsAwsOwn(p: Plan, w: World, i: Item)
    requires SubmittedOnce(p, w) && i in w.db.checkpoints && w.db.checkpoints[i].execution.Some?
    ensures var cp := w.db.checkpoints[i];
      && cp.token.Some? && cp.token.value in w.aws.holds && w.aws.holds[cp.token.value] == cp.execution.value
      && cp.execution.value in Paid(w, i, cp.indexId)
  {
    assert RowMatchesAws(w, i);
  }
}

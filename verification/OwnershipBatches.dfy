/** Carrying a plan out: a hundred targets per transaction, each transaction guarded and atomic. */
module OwnershipBatches {
  import opened OwnershipRepair

  const BATCH_SIZE: nat := 100

  /** Everything that moves to one card. */
  datatype Target = Target(id: CardId, create: bool, moves: seq<Move>)

  /** Current owners of observations, the cards there are, and the targets a repair event was ever written for:
      an event's key names its target, and keys are unique. */
  datatype Database = Database(owners: map<ObservationId, CardId>, cards: set<CardId>, repaired: set<CardId>)

  /** The targets of a plan, with their moves. */
  ghost predicate WellFormed(targets: seq<Target>) {
    && (forall i, j :: 0 <= i < j < |targets| ==> targets[i].id != targets[j].id)
    && (forall i, m :: 0 <= i < |targets| && m in targets[i].moves ==> m.to == targets[i].id)
    && (forall i, a, b :: 0 <= i < |targets| && 0 <= a < b < |targets[i].moves| ==>
          targets[i].moves[a].id != targets[i].moves[b].id)
    && (forall i, j, m, n :: 0 <= i < j < |targets| && m in targets[i].moves && n in targets[j].moves ==> m.id != n.id)
  }

  /** What the transaction's guards ask of one target. */
  predicate Admits(db: Database, t: Target) {
    && (t.create ==> t.id !in db.cards)
    && (forall m :: m in t.moves ==> m.id in db.owners && db.owners[m.id] == m.from)
    && t.id !in db.repaired
  }

  function MoveAll(owners: map<ObservationId, CardId>, moves: seq<Move>): map<ObservationId, CardId> {
    if moves == [] then owners else MoveAll(owners, moves[..|moves|-1])[moves[|moves|-1].id := moves[|moves|-1].to]
  }

  function WithTarget(db: Database, t: Target): Database {
    Database(MoveAll(db.owners, t.moves), if t.create then db.cards + {t.id} else db.cards, db.repaired + {t.id})
  }

  function WithTargets(db: Database, targets: seq<Target>): Database {
    if targets == [] then db else WithTarget(WithTargets(db, targets[..|targets|-1]), targets[|targets|-1])
  }

  predicate AdmitsAll(db: Database, targets: seq<Target>) {
    forall i :: 0 <= i < |targets| ==> Admits(db, targets[i])
  }

  class RepairDatabase {
    var state: Database

    constructor (db: Database)
      ensures state == db
    {
      state := db;
    }

    /** One transaction: every guard holds and all of it happens, or nothing does. */
    method CommitBatch(batch: seq<Target>) returns (ok: bool)
      modifies this
      ensures ok <==> AdmitsAll(old(state), batch)
      ensures state == if ok then WithTargets(old(state), batch) else old(state)
      ensures ok <==> forall i :: 0 <= i < |batch| ==>
                && (batch[i].create ==> batch[i].id !in old(state).cards) && batch[i].id !in old(state).repaired
                && forall m :: m in batch[i].moves ==> m.id in old(state).owners && old(state).owners[m.id] == m.from
      ensures ok && WellFormed(batch) ==> Committed(old(state), batch, state)
    {
      if WellFormed(batch) { BatchEffect(state, batch); }

      var next, k := state, 0;
      ok := true;
      while k < |batch|
        invariant k <= |batch|
        invariant next == WithTargets(state, batch[..k])
        invariant ok <==> AdmitsAll(state, batch[..k])
      {
        assert batch[..k+1][..k] == batch[..k];
        if !Admits(state, batch[k]) { ok := false; }
        next := WithTarget(next, batch[k]);
        k := k + 1;
      }
      assert batch[..k] == batch;
      if ok { state := next; }
    }

    /** Batch after batch, until one is refused or the process dies before it. Whatever happens, exactly the first `done`
        targets have been given all of their moves, and no other target any. */
    method ApplyMoves(targets: seq<Target>, diesAfter: nat) returns (done: nat, finished: bool)
      modifies this
      ensures done <= |targets| && state == WithTargets(old(state), targets[..done])
      ensures finished <==> done == |targets|
      ensures done == Reaches(old(state), targets, 0) || (!finished && done == 100 * diesAfter)
      ensures done == |targets| || done % 100 == 0
    {
      hide WithTargets, AdmitsAll, Reaches, NextBatch;
      done := 0;
      var batches := 0;
      assert WithTargets(state, targets[..0]) == state by { NoTargets(state, targets); }
      while done < |targets|
        invariant done <= |targets| && state == WithTargets(old(state), targets[..done])
        invariant done == if BATCH_SIZE * batches < |targets| then BATCH_SIZE * batches else |targets|
        invariant batches <= diesAfter
        invariant Reaches(old(state), targets, 0) == Reaches(old(state), targets, done)
        decreases |targets| - done
      {
        if batches == diesAfter { return done, false; }
        ReachesStep(old(state), targets, done);
        var end := if done + BATCH_SIZE < |targets| then done + BATCH_SIZE else |targets|;
        var ok := CommitBatch(targets[done..end]);
        if !ok { return done, false; }
        WithMore(old(state), targets, done, end);
        done, batches := end, batches + 1;
      }
      ReachesStep(old(state), targets, done);
      finished := true;
    }
  }

  lemma NoTargets(db: Database, targets: seq<Target>)
    ensures WithTargets(db, targets[..0]) == db
  {}

  lemma ReachesStep(db: Database, targets: seq<Target>, done: nat)
    requires done <= |targets|
    ensures var end := if done + BATCH_SIZE < |targets| then done + BATCH_SIZE else |targets|;
      Reaches(db, targets, done) ==
        if done == |targets| || !AdmitsAll(WithTargets(db, targets[..done]), targets[done..end]) then done
        else Reaches(db, targets, end)
  {
    assert done + BATCH_SIZE >= |targets| ==> targets[done..] == targets[done..|targets|];
    hide AdmitsAll, WithTargets;
  }

  function NextBatch(targets: seq<Target>, done: nat): seq<Target>
    requires done <= |targets|
  {
    if done + BATCH_SIZE < |targets| then targets[done..done + BATCH_SIZE] else targets[done..]
  }

  lemma {:induction false} WithConcat(db: Database, a: seq<Target>, b: seq<Target>)
    ensures WithTargets(db, a + b) == WithTargets(WithTargets(db, a), b)
  {
    if b == [] {
      assert a + b == a;
    } else {
      WithConcat(db, a, b[..|b|-1]);
      assert (a + b)[..|a + b|-1] == a + b[..|b|-1];
    }
  }

  lemma WithMore(db: Database, targets: seq<Target>, done: nat, end: nat)
    requires done <= end <= |targets|
    ensures WithTargets(WithTargets(db, targets[..done]), targets[done..end]) == WithTargets(db, targets[..end])
  {
    assert targets[..end] == targets[..done] + targets[done..end];
    WithConcat(db, targets[..done], targets[done..end]);
  }

  predicate MovesIn(batch: seq<Target>, x: ObservationId) {
    exists i, m :: 0 <= i < |batch| && m in batch[i].moves && m.id == x
  }

  ghost predicate MovesMade(batch: seq<Target>, next: Database) {
    forall i, m :: 0 <= i < |batch| && m in batch[i].moves ==> m.id in next.owners && next.owners[m.id] == m.to
  }

  ghost predicate OthersStay(db: Database, batch: seq<Target>, next: Database) {
    forall x :: !MovesIn(batch, x) ==> (x in next.owners <==> x in db.owners) && (x in db.owners ==> next.owners[x] == db.owners[x])
  }

  ghost predicate CardsAndEvents(db: Database, batch: seq<Target>, next: Database) {
    && (forall x :: x in next.cards <==> x in db.cards || exists i :: 0 <= i < |batch| && batch[i].create && batch[i].id == x)
    && (forall x :: x in next.repaired <==> x in db.repaired || exists i :: 0 <= i < |batch| && batch[i].id == x)
  }

  /** Every move of the batch is made and no other; its new cards are there, and an event for each of its targets. */
  ghost predicate Committed(db: Database, batch: seq<Target>, next: Database) {
    MovesMade(batch, next) && OthersStay(db, batch, next) && CardsAndEvents(db, batch, next)
  }

  lemma MovedByNone(batch: seq<Target>, x: ObservationId)
    requires batch != [] && !MovesIn(batch, x)
    ensures !MovesIn(batch[..|batch|-1], x) && forall m :: m in batch[|batch|-1].moves ==> m.id != x
  {
    var front := batch[..|batch|-1];
    assert forall i :: 0 <= i < |front| ==> front[i] == batch[i];
  }

  lemma {:induction false} UntouchedByBatch(db: Database, batch: seq<Target>, x: ObservationId)
    requires !MovesIn(batch, x)
    ensures x in WithTargets(db, batch).owners <==> x in db.owners
    ensures x in db.owners ==> WithTargets(db, batch).owners[x] == db.owners[x]
  {
    if batch != [] {
      var front, last := batch[..|batch|-1], batch[|batch|-1];
      MovedByNone(batch, x);
      UntouchedByBatch(db, front, x);
      Unmoved(WithTargets(db, front).owners, last.moves, x);
    }
  }

  lemma MoveIsMade(db: Database, batch: seq<Target>, i: nat, m: Move)
    requires WellFormed(batch) && i < |batch| && m in batch[i].moves
    ensures var owners := WithTargets(db, batch).owners; m.id in owners && owners[m.id] == m.to
  {
    hide *;
    assert batch[..|batch|] == batch;
    var k :| 0 <= k < |batch[i].moves| && batch[i].moves[k] == m;
    AllOrNone(db, batch, |batch|, i, k);
  }

  lemma BatchMoves(db: Database, batch: seq<Target>)
    requires WellFormed(batch)
    ensures MovesMade(batch, WithTargets(db, batch))
  {
    hide WellFormed, WithTargets;
    forall i, m | 0 <= i < |batch| && m in batch[i].moves
      ensures m.id in WithTargets(db, batch).owners && WithTargets(db, batch).owners[m.id] == m.to
    {
      MoveIsMade(db, batch, i, m);
    }
  }

  lemma BatchLeavesOthers(db: Database, batch: seq<Target>)
    ensures OthersStay(db, batch, WithTargets(db, batch))
  {
    hide WithTargets, MovesIn;
    var next := WithTargets(db, batch);
    forall x | !MovesIn(batch, x)
      ensures (x in next.owners <==> x in db.owners) && (x in db.owners ==> next.owners[x] == db.owners[x])
    {
      UntouchedByBatch(db, batch, x);
    }
  }

  lemma BatchWritesCards(db: Database, batch: seq<Target>)
    ensures CardsAndEvents(db, batch, WithTargets(db, batch))
  {
    assert batch[..|batch|] == batch;
    hide WithTargets;
    var next := WithTargets(db, batch);
    forall x ensures x in next.cards <==> x in db.cards || exists i :: 0 <= i < |batch| && batch[i].create && batch[i].id == x {
      CardsAfter(db, batch, |batch|, x);
    }
    forall x ensures x in next.repaired <==> x in db.repaired || exists i :: 0 <= i < |batch| && batch[i].id == x {
      CardsAfter(db, batch, |batch|, x);
    }
  }

  lemma BatchEffect(db: Database, batch: seq<Target>)
    requires WellFormed(batch)
    ensures Committed(db, batch, WithTargets(db, batch))
  {
    hide WellFormed, WithTargets, MovesMade, OthersStay, CardsAndEvents;
    BatchMoves(db, batch);
    BatchLeavesOthers(db, batch);
    BatchWritesCards(db, batch);
  }

  // ----- all or none -----

  lemma {:induction false} Unmoved(owners: map<ObservationId, CardId>, moves: seq<Move>, x: ObservationId)
    requires forall m :: m in moves ==> m.id != x
    ensures x in MoveAll(owners, moves) <==> x in owners
    ensures x in owners ==> MoveAll(owners, moves)[x] == owners[x]
  {
    if moves != [] { Unmoved(owners, moves[..|moves|-1], x); }
  }

  lemma {:induction false} MovedTo(owners: map<ObservationId, CardId>, moves: seq<Move>, k: nat)
    requires k < |moves| && forall j :: k < j < |moves| ==> moves[j].id != moves[k].id
    ensures moves[k].id in MoveAll(owners, moves) && MoveAll(owners, moves)[moves[k].id] == moves[k].to
  {
    if k < |moves| - 1 { MovedTo(owners, moves[..|moves|-1], k); }
  }

  /** After `done` targets: every move of those targets is made, and no move of any other target, so no target is ever
      half populated, wherever a run stops. */
  lemma {:induction false} AllOrNone(db: Database, targets: seq<Target>, done: nat, i: nat, k: nat)
    requires WellFormed(targets) && done <= |targets| && i < |targets| && k < |targets[i].moves|
    ensures var owners, m := WithTargets(db, targets[..done]).owners, targets[i].moves[k];
      if i < done then m.id in owners && owners[m.id] == m.to
      else (m.id in owners <==> m.id in db.owners) && (m.id in db.owners ==> owners[m.id] == db.owners[m.id])
    decreases done
  {
    if done > 0 {
      AllOrNone(db, targets, done - 1, i, k);
      assert targets[..done][..done-1] == targets[..done-1];
      var before := WithTargets(db, targets[..done-1]);
      var m := targets[i].moves[k];
      assert m in targets[i].moves;
      hide WithTargets;
      if i == done - 1 {
        MovedTo(before.owners, targets[i].moves, k);
      } else {
        Unmoved(before.owners, targets[done-1].moves, m.id);
      }
    }
  }

  lemma {:induction false} CardsAfter(db: Database, targets: seq<Target>, done: nat, x: CardId)
    requires done <= |targets|
    ensures x in WithTargets(db, targets[..done]).repaired <==> x in db.repaired || exists i :: 0 <= i < done && targets[i].id == x
    ensures x in WithTargets(db, targets[..done]).cards
            <==> x in db.cards || exists i :: 0 <= i < done && targets[i].create && targets[i].id == x
    decreases done
  {
    if done > 0 {
      CardsAfter(db, targets, done - 1, x);
      assert targets[..done][..done-1] == targets[..done-1];
    }
  }

  /** What earlier batches did does not matter to a later target's guards. */
  lemma GuardsAreIndependent(db: Database, targets: seq<Target>, done: nat, i: nat)
    requires WellFormed(targets) && done <= i < |targets|
    ensures Admits(WithTargets(db, targets[..done]), targets[i]) <==> Admits(db, targets[i])
  {
    var t := targets[i];
    CardsAfter(db, targets, done, t.id);
    forall m | m in t.moves
      ensures m.id in WithTargets(db, targets[..done]).owners <==> m.id in db.owners
      ensures m.id in db.owners ==> WithTargets(db, targets[..done]).owners[m.id] == db.owners[m.id]
    {
      var k :| 0 <= k < |t.moves| && t.moves[k] == m;
      AllOrNone(db, targets, done, i, k);
    }
    hide WithTargets, WellFormed;
  }

  /** Where a run that does not die stops: after the last full batch before the first target whose guards fail. */
  function Reaches(db: Database, targets: seq<Target>, done: nat): nat
    requires done <= |targets|
    decreases |targets| - done
  {
    if done == |targets| || !AdmitsAll(WithTargets(db, targets[..done]), NextBatch(targets, done)) then done
    else Reaches(db, targets, if done + BATCH_SIZE < |targets| then done + BATCH_SIZE else |targets|)
  }

  /** It stops short exactly when some target is not admitted by the database as it was found: a card to be created that
      exists, an observation that has moved on, or a target that was repaired before. */
  lemma {:induction false} StopsIff(db: Database, targets: seq<Target>, done: nat)
    requires WellFormed(targets) && done <= |targets|
    ensures done <= Reaches(db, targets, done) <= |targets|
    ensures Reaches(db, targets, done) == |targets| <==> forall i :: done <= i < |targets| ==> Admits(db, targets[i])
    decreases |targets| - done
  {
    if done < |targets| {
      var batch := NextBatch(targets, done);
      var after := WithTargets(db, targets[..done]);
      forall k | 0 <= k < |batch| ensures Admits(after, batch[k]) <==> Admits(db, targets[done + k]) {
        GuardsAreIndependent(db, targets, done, done + k);
      }
      hide Admits, WithTargets, WellFormed;
      if AdmitsAll(after, batch) {
        StopsIff(db, targets, done + |batch|);
        forall i | done <= i < done + |batch| ensures Admits(db, targets[i]) { assert Admits(after, batch[i - done]); }
      } else {
        var k :| 0 <= k < |batch| && !Admits(after, batch[k]);
        assert !Admits(db, targets[done + k]);
      }
    }
  }

  /** A card can be repaired once: after its event is written, no plan that moves anything to it again can finish. */
  lemma SecondRepairNeverFinishes(db: Database, first: seq<Target>, second: seq<Target>, i: nat, j: nat)
    requires i < |first| && j < |second| && first[i].id == second[j].id && WellFormed(second)
    ensures Reaches(WithTargets(db, first), second, 0) < |second|
  {
    CardsAfter(db, first, |first|, first[i].id);
    assert first[..|first|] == first;
    assert !Admits(WithTargets(db, first), second[j]);
    StopsIff(WithTargets(db, first), second, 0);
  }

  // ----- from a plan to its targets -----

  predicate DistinctMoveIds(moves: seq<Move>) {
    forall i, j :: 0 <= i < j < |moves| ==> moves[i].id != moves[j].id
  }

  ghost predicate ByTarget(moves: seq<Move>, ids: seq<CardId>, groups: map<CardId, seq<Move>>) {
    && (forall i, j :: 0 <= i < j < |ids| ==> ids[i] != ids[j]) && (forall x :: x in ids <==> x in groups)
    && (forall x, m :: x in groups && m in groups[x] ==> m in moves && m.to == x)
    && (forall m :: m in moves ==> m.to in groups && m in groups[m.to])
    && (forall x :: x in groups ==> DistinctMoveIds(groups[x]))
  }

  lemma AddMove(moves: seq<Move>, ids: seq<CardId>, groups: map<CardId, seq<Move>>, m: Move)
    requires ByTarget(moves, ids, groups) && forall n :: n in moves ==> n.id != m.id
    ensures ByTarget(moves + [m], if m.to in groups then ids else ids + [m.to],
                     groups[m.to := (if m.to in groups then groups[m.to] else []) + [m]])
  {}

  lemma DifferentMoves(moves: seq<Move>, m: Move, n: Move)
    requires DistinctMoveIds(moves) && m in moves && n in moves && m != n
    ensures m.id != n.id
  {}

  ghost predicate AreGroups(ids: seq<CardId>, groups: map<CardId, seq<Move>>, targets: seq<Target>) {
    && |targets| == |ids|
    && forall i :: 0 <= i < |ids| ==> ids[i] in groups && targets[i].id == ids[i] && targets[i].moves == groups[ids[i]]
  }

  lemma GroupsAreWellFormed(moves: seq<Move>, ids: seq<CardId>, groups: map<CardId, seq<Move>>, targets: seq<Target>)
    requires DistinctMoveIds(moves) && ByTarget(moves, ids, groups) && AreGroups(ids, groups, targets)
    ensures WellFormed(targets)
  {
    forall i, m | 0 <= i < |targets| && m in targets[i].moves ensures m.to == targets[i].id && m in moves {}
    forall i | 0 <= i < |targets| ensures DistinctMoveIds(targets[i].moves) {}
    forall i, j | 0 <= i < j < |targets| ensures targets[i].id != targets[j].id {}
    hide ByTarget, AreGroups;
    forall i, j, m, n | 0 <= i < j < |targets| && m in targets[i].moves && n in targets[j].moves ensures m.id != n.id {
      DifferentMoves(moves, m, n);
    }
  }

  lemma GroupsAreComplete(moves: seq<Move>, ids: seq<CardId>, groups: map<CardId, seq<Move>>, targets: seq<Target>)
    requires ByTarget(moves, ids, groups) && AreGroups(ids, groups, targets)
    ensures forall m :: m in moves <==> exists i :: 0 <= i < |targets| && m in targets[i].moves
  {
    forall m | m in moves ensures exists i :: 0 <= i < |targets| && m in targets[i].moves {
      assert m.to in ids;
      var i :| 0 <= i < |ids| && ids[i] == m.to;
      assert m in targets[i].moves;
    }
  }

  /** Moves grouped by the card they go to; together the groups are all moves, and each is what a transaction takes. */
  method MovesByTarget(moves: seq<Move>, created: set<CardId>) returns (targets: seq<Target>)
    requires DistinctMoveIds(moves)
    ensures WellFormed(targets)
    ensures forall m :: m in moves <==> exists i :: 0 <= i < |targets| && m in targets[i].moves
    ensures forall i :: 0 <= i < |targets| ==> (targets[i].create <==> targets[i].id in created)
  {
    hide ByTarget, WellFormed;
    var ids: seq<CardId>, groups: map<CardId, seq<Move>> := [], map[];
    assert ByTarget(moves[..0], ids, groups) by { NoMovesYet(); }
    var k := 0;
    while k < |moves|
      invariant k <= |moves| && ByTarget(moves[..k], ids, groups)
    {
      var m := moves[k];
      assert moves[..k+1] == moves[..k] + [m];
      assert forall n :: n in moves[..k] ==> n.id != m.id;
      AddMove(moves[..k], ids, groups, m);
      ids := if m.to in groups then ids else ids + [m.to];
      groups := groups[m.to := (if m.to in groups then groups[m.to] else []) + [m]];
      k := k + 1;
    }
    assert moves[..k] == moves;
    IdsAreKeys(moves, ids, groups);
    targets := seq(|ids|, i requires 0 <= i < |ids| => Target(ids[i], ids[i] in created, groups[ids[i]]));
    assert AreGroups(ids, groups, targets);
    GroupsAreWellFormed(moves, ids, groups, targets);
    GroupsAreComplete(moves, ids, groups, targets);
  }

  lemma NoMovesYet()
    ensures ByTarget([], [], map[])
  {}

  lemma IdsAreKeys(moves: seq<Move>, ids: seq<CardId>, groups: map<CardId, seq<Move>>)
    requires ByTarget(moves, ids, groups)
    ensures forall i :: 0 <= i < |ids| ==> ids[i] in groups
  {}
}

/**
 * Giving job postings back to the cards they belong to: who owns a posting key, which observations move, and the
 * guarded batches that carry the moves out.
 */
module OwnershipRepair {
  import opened Basics
  import opened Ordering

  datatype Key = Key(text: string)
  type CardId = nat
  type ObservationId = nat

  /** `ownKey` is the posting the card was written for. */
  datatype Card = Card(id: CardId, ownKey: Option<Key>, engaged: bool, scored: bool, consolidated: bool, createdAt: int)

  /** `verified`: an immutable listing of this very observation was found and is valid. */
  datatype Observation = Observation(id: ObservationId, jobId: CardId, key: Option<Key>, verified: bool)

  datatype Move = Move(id: ObservationId, from: CardId, to: CardId, key: Key)

  // ----- who owns a key -----

  /** Applications first, then scored cards, cards never folded into another, older cards, and smaller ids. */
  predicate Prefers(a: Card, b: Card) {
    if a.engaged != b.engaged then a.engaged
    else if a.scored != b.scored then a.scored
    else if a.consolidated != b.consolidated then b.consolidated
    else if a.createdAt != b.createdAt then a.createdAt < b.createdAt
    else a.id < b.id
  }

  predicate DistinctCards(cards: seq<Card>) {
    forall i, j :: 0 <= i < j < |cards| ==> cards[i].id != cards[j].id
  }

  predicate MayOwn(c: Card, held: set<CardId>, key: Key) {
    c.ownKey == Some(key) && c.id !in held
  }

  lemma DistinctCardsAreRanked(cards: seq<Card>, group: seq<Card>)
    requires DistinctCards(cards) && forall c :: c in group ==> c in cards
    ensures TotalOn(Prefers, group)
  {}

  /** `owner` names, for every key some card may own, the most preferred of those cards. */
  ghost predicate OwnersChosen(cards: seq<Card>, held: set<CardId>, owner: map<Key, CardId>) {
    && (forall c, k :: c in cards && MayOwn(c, held, k) ==> k in owner)
    && (forall k :: k in owner ==> exists c :: IsOwner(cards, held, k, c) && c.id == owner[k])
  }

  ghost predicate IsOwner(cards: seq<Card>, held: set<CardId>, key: Key, c: Card) {
    c in cards && MayOwn(c, held, key) && forall d :: d in cards && MayOwn(d, held, key) && d != c ==> Prefers(c, d)
  }

  /** The cards of each key, in the order they were loaded. */
  ghost predicate CardsByKey(cards: seq<Card>, held: set<CardId>, owners: map<Key, seq<Card>>) {
    && (forall k, c :: k in owners && c in owners[k] ==> c in cards && MayOwn(c, held, k))
    && (forall k :: k in owners ==> owners[k] != [])
    && (forall c, k :: c in cards && MayOwn(c, held, k) ==> k in owners && c in owners[k])
  }

  lemma AddCard(cards: seq<Card>, held: set<CardId>, owners: map<Key, seq<Card>>, c: Card)
    requires CardsByKey(cards, held, owners)
    ensures c.ownKey.None? || c.id in held ==> CardsByKey(cards + [c], held, owners)
    ensures c.ownKey.Some? && c.id !in held ==>
      var k := c.ownKey.value;
      CardsByKey(cards + [c], held, owners[k := (if k in owners then owners[k] else []) + [c]])
  {}

  lemma FirstIsOwner(cards: seq<Card>, held: set<CardId>, owners: map<Key, seq<Card>>, key: Key)
    requires DistinctCards(cards) && CardsByKey(cards, held, owners) && key in owners
    ensures Sort(owners[key], Prefers) != [] && IsOwner(cards, held, key, Sort(owners[key], Prefers)[0])
  {
    DistinctCardsAreRanked(cards, owners[key]);
    hide Prefers;
    FirstIsLeast(owners[key], Prefers);
  }

  method ChooseOwners(cards: seq<Card>, held: set<CardId>) returns (owner: map<Key, CardId>)
    requires DistinctCards(cards)
    ensures OwnersChosen(cards, held, owner)
  {
    hide Prefers, CardsByKey, IsOwner, DistinctCards;
    var owners: map<Key, seq<Card>> := map[];
    var k := 0;
    assert CardsByKey(cards[..0], held, owners) by { NoCardsYet(held); }
    while k < |cards|
      invariant k <= |cards| && CardsByKey(cards[..k], held, owners)
    {
      var c := cards[k];
      assert cards[..k+1] == cards[..k] + [c];
      AddCard(cards[..k], held, owners, c);
      if c.ownKey.Some? && c.id !in held {
        var key := c.ownKey.value;
        owners := owners[key := (if key in owners then owners[key] else []) + [c]];
      }
      k := k + 1;
    }
    assert cards[..k] == cards;
    owner := map[];
    var left := owners.Keys;
    while left != {}
      invariant left <= owners.Keys && owner.Keys == owners.Keys - left
      invariant forall key :: key in owner ==> exists c :: IsOwner(cards, held, key, c) && c.id == owner[key]
      decreases |left|
    {
      var key :| key in left;
      FirstIsOwner(cards, held, owners, key);
      owner := owner[key := Sort(owners[key], Prefers)[0].id];
      left := left - {key};
    }
    EveryKeyHasItsOwner(cards, held, owners);
  }

  lemma NoCardsYet(held: set<CardId>)
    ensures CardsByKey([], held, map[])
  {}

  lemma EveryKeyHasItsOwner(cards: seq<Card>, held: set<CardId>, owners: map<Key, seq<Card>>)
    requires CardsByKey(cards, held, owners)
    ensures forall c, k :: c in cards && MayOwn(c, held, k) ==> k in owners
  {}

  /** Who owns a key: an applied-to card if there is one; among equals a scored card; among those one never folded into
      another; among those the oldest; and among those the smallest id. */
  lemma OwnerIsBest(cards: seq<Card>, held: set<CardId>, owner: map<Key, CardId>, key: Key, d: Card) returns (c: Card)
    requires OwnersChosen(cards, held, owner) && d in cards && MayOwn(d, held, key)
    ensures key in owner && c in cards && c.id == owner[key] && c.ownKey == Some(key) && c.id !in held
    ensures d.engaged ==> c.engaged
    ensures d.engaged == c.engaged && d.scored ==> c.scored
    ensures d.engaged == c.engaged && d.scored == c.scored && !d.consolidated ==> !c.consolidated
    ensures d.engaged == c.engaged && d.scored == c.scored && d.consolidated == c.consolidated ==> c.createdAt <= d.createdAt
    ensures d.engaged == c.engaged && d.scored == c.scored && d.consolidated == c.consolidated && d.createdAt == c.createdAt ==>
              c.id <= d.id
  {
    c :| IsOwner(cards, held, key, c) && c.id == owner[key];
  }

  // ----- what happens to each observation -----

  datatype Fate = Malformed | OnHeldCard | AlreadyCorrect | Unverified | Moves

  /** The keys the loaded cards were written for; a card that was not loaded has none. */
  predicate OwnKeyIs(cards: seq<Card>, id: CardId, key: Key) {
    exists c :: c in cards && c.id == id && c.ownKey == Some(key)
  }

  function FateOf(cards: seq<Card>, held: set<CardId>, o: Observation): Fate {
    if o.key.None? then Malformed
    else if o.jobId in held then OnHeldCard
    else if OwnKeyIs(cards, o.jobId, o.key.value) then AlreadyCorrect
    else if o.verified then Moves
    else Unverified
  }

  /** The owner of the key, or the card to be created for it. */
  function TargetOf(owner: map<Key, CardId>, stableId: Key -> CardId, key: Key): CardId {
    if key in owner then owner[key] else stableId(key)
  }

  function MoveOf(owner: map<Key, CardId>, stableId: Key -> CardId, o: Observation): Move
    requires o.key.Some?
  {
    Move(o.id, o.jobId, TargetOf(owner, stableId, o.key.value), o.key.value)
  }

  predicate DistinctIds(observations: seq<Observation>) {
    forall i, j :: 0 <= i < j < |observations| ==> observations[i].id != observations[j].id
  }

  predicate InGroup(cards: seq<Card>, held: set<CardId>, o: Observation, key: Key) {
    o.key == Some(key) && (FateOf(cards, held, o).Moves? || FateOf(cards, held, o).Unverified?)
  }

  datatype Plan = Plan(creates: seq<Key>, moves: seq<Move>, held: seq<ObservationId>)

  /** An observation moves, once, exactly when that is its fate. */
  ghost predicate MovesPlanned(cards: seq<Card>, held: set<CardId>, owner: map<Key, CardId>, stableId: Key -> CardId,
                               observations: seq<Observation>, moves: seq<Move>)
  {
    && (forall o :: o in observations && FateOf(cards, held, o).Moves? ==> MoveOf(owner, stableId, o) in moves)
    && (forall m :: m in moves ==>
          exists o :: o in observations && FateOf(cards, held, o).Moves? && m == MoveOf(owner, stableId, o))
    && (forall i, j :: 0 <= i < j < |moves| ==> moves[i].id != moves[j].id)
  }

  /** An observation is held, once, exactly when it is malformed or its move lacks evidence. */
  ghost predicate HeldPlanned(cards: seq<Card>, held: set<CardId>, observations: seq<Observation>, ids: seq<ObservationId>) {
    && (forall x :: x in ids <==>
          exists o :: o in observations && o.id == x && (FateOf(cards, held, o).Malformed? || FateOf(cards, held, o).Unverified?))
    && Distinct(ids)
  }

  /** A card is created, once, exactly for a key that something moves to and nobody owns. */
  ghost predicate CreatesPlanned(owner: map<Key, CardId>, moves: seq<Move>, creates: seq<Key>) {
    && (forall k :: k in creates <==> k !in owner && exists m :: m in moves && m.key == k)
    && Distinct(creates)
  }

  ghost predicate IsPlan(cards: seq<Card>, held: set<CardId>, owner: map<Key, CardId>, stableId: Key -> CardId,
                         observations: seq<Observation>, plan: Plan)
  {
    && MovesPlanned(cards, held, owner, stableId, observations, plan.moves)
    && HeldPlanned(cards, held, observations, plan.held)
    && CreatesPlanned(owner, plan.moves, plan.creates)
  }

  // ----- what a plan guarantees -----

  lemma SameObservation(observations: seq<Observation>, a: Observation, b: Observation)
    requires DistinctIds(observations) && a in observations && b in observations && a.id == b.id
    ensures a == b
  {}

  /** Every move takes an observation away from a card with a different own key, to the one card that owns its key or
      the one created for it; what is held, correct or on a held card does not move. */
  lemma MovesAreJustified(cards: seq<Card>, held: set<CardId>, owner: map<Key, CardId>, stableId: Key -> CardId,
                          observations: seq<Observation>, plan: Plan, m: Move)
    requires DistinctIds(observations) && OwnersChosen(cards, held, owner) && m in plan.moves
    requires IsPlan(cards, held, owner, stableId, observations, plan)
    ensures !OwnKeyIs(cards, m.from, m.key) && m.from !in held && m.id !in plan.held
    ensures if m.key in plan.creates then m.to == stableId(m.key) && m.key !in owner
            else OwnKeyIs(cards, m.to, m.key) && m.to !in held && m.from != m.to
    ensures forall n :: n in plan.moves && n.id == m.id ==> n == m
    ensures exists o :: o in observations && o.id == m.id && o.jobId == m.from && o.key == Some(m.key) && o.verified
  {
    var o :| o in observations && FateOf(cards, held, o).Moves? && m == MoveOf(owner, stableId, o);
    if m.id in plan.held {
      var p :| p in observations && p.id == m.id && (FateOf(cards, held, p).Malformed? || FateOf(cards, held, p).Unverified?);
      SameObservation(observations, o, p);
      assert false;
    }
    if m.key in owner {
      var c :| IsOwner(cards, held, m.key, c) && c.id == owner[m.key];
    }
  }

  /** What the plan does with one observation. One with a key, on a card that is not held and was not written for that key,
      moves if it has evidence, and is held if it has none; one without a key is held; no other is in the plan. */
  ghost predicate Accounted(cards: seq<Card>, held: set<CardId>, owner: map<Key, CardId>, stableId: Key -> CardId,
                            o: Observation, plan: Plan)
  {
    var astray := o.key.Some? && o.jobId !in held
                  && forall c :: c in cards && c.id == o.jobId ==> c.ownKey != o.key;
    && (o.id in plan.held <==> o.key.None? || (astray && !o.verified))
    && ((exists m :: m in plan.moves && m.id == o.id) <==> astray && o.verified)
    && (astray && o.verified ==>
          var k := o.key.value;
          && Move(o.id, o.jobId, if k in owner then owner[k] else stableId(k), k) in plan.moves
          && (k in plan.creates <==> k !in owner))
  }

  lemma PlanAccounts(cards: seq<Card>, held: set<CardId>, owner: map<Key, CardId>, stableId: Key -> CardId,
                     observations: seq<Observation>, plan: Plan, o: Observation)
    requires DistinctIds(observations) && o in observations && IsPlan(cards, held, owner, stableId, observations, plan)
    ensures Accounted(cards, held, owner, stableId, o, plan)
  {
    var fate := FateOf(cards, held, o);
    if o.id in plan.held {
      var q :| q in observations && q.id == o.id && (FateOf(cards, held, q).Malformed? || FateOf(cards, held, q).Unverified?);
      SameObservation(observations, o, q);
    }
    if m :| m in plan.moves && m.id == o.id {
      var q :| q in observations && FateOf(cards, held, q).Moves? && m == MoveOf(owner, stableId, q);
      SameObservation(observations, o, q);
    }
    if fate.Moves? {
      var m := MoveOf(owner, stableId, o);
      assert m in plan.moves && m.id == o.id && m.key == o.key.value;
    }
    assert OwnKeyIsNot(cards, o.jobId, o.key);
  }

  /** The two ways to say that a card was not written for a key. */
  predicate OwnKeyIsNot(cards: seq<Card>, id: CardId, key: Option<Key>) {
    key.Some? ==> (!OwnKeyIs(cards, id, key.value) <==> forall c :: c in cards && c.id == id ==> c.ownKey != key)
  }

  /** The observations of one key move to one card. */
  lemma OneTargetPerKey(cards: seq<Card>, held: set<CardId>, owner: map<Key, CardId>, stableId: Key -> CardId,
                        observations: seq<Observation>, plan: Plan, m: Move, n: Move)
    requires IsPlan(cards, held, owner, stableId, observations, plan)
    requires m in plan.moves && n in plan.moves && m.key == n.key
    ensures m.to == n.to
  {
    var o :| o in observations && FateOf(cards, held, o).Moves? && m == MoveOf(owner, stableId, o);
    var p :| p in observations && FateOf(cards, held, p).Moves? && n == MoveOf(owner, stableId, p);
  }

  // ----- planning -----

  function VerifiedOf(members: seq<Observation>): seq<Observation> {
    if members == [] then []
    else VerifiedOf(members[..|members|-1]) + if members[|members|-1].verified then [members[|members|-1]] else []
  }

  lemma {:induction false} VerifiedMembers(members: seq<Observation>)
    ensures forall o :: o in VerifiedOf(members) <==> o in members && o.verified
    ensures DistinctIds(members) ==> DistinctIds(VerifiedOf(members))
  {
    if members != [] {
      VerifiedMembers(members[..|members|-1]);
      assert members == members[..|members|-1] + [members[|members|-1]];
    }
  }

  /** What the grouping pass has built from a prefix: each key once, with the observations that are not at home. */
  ghost predicate Grouped(cards: seq<Card>, held: set<CardId>, observations: seq<Observation>, keys: seq<Key>,
                          grouped: map<Key, seq<Observation>>)
  {
    && Distinct(keys) && (forall k :: k in keys <==> k in grouped)
    && (forall k, o :: k in grouped && o in grouped[k] ==> o in observations && InGroup(cards, held, o, k))
    && (forall k :: k in grouped ==> DistinctIds(grouped[k]) && grouped[k] != [])
    && (forall o :: o in observations && o.key.Some? && InGroup(cards, held, o, o.key.value) ==>
          o.key.value in grouped && o in grouped[o.key.value])
  }

  ghost predicate HeldMalformed(observations: seq<Observation>, ids: seq<ObservationId>) {
    && Distinct(ids)
    && forall x :: x in ids <==> exists o :: o in observations && o.id == x && o.key.None?
  }

  lemma GroupOne(cards: seq<Card>, held: set<CardId>, before: seq<Observation>, keys: seq<Key>,
                 grouped: map<Key, seq<Observation>>, o: Observation)
    requires Grouped(cards, held, before, keys, grouped) && forall p :: p in before ==> p.id != o.id
    ensures o.key.None? || !InGroup(cards, held, o, o.key.value) ==> Grouped(cards, held, before + [o], keys, grouped)
    ensures o.key.Some? && InGroup(cards, held, o, o.key.value) ==>
      var k := o.key.value;
      Grouped(cards, held, before + [o], if k in grouped then keys else keys + [k],
              grouped[k := (if k in grouped then grouped[k] else []) + [o]])
  {
    hide FateOf;
  }

  lemma HoldOne(before: seq<Observation>, ids: seq<ObservationId>, o: Observation)
    requires HeldMalformed(before, ids) && forall p :: p in before ==> p.id != o.id
    ensures o.key.None? ==> HeldMalformed(before + [o], ids + [o.id])
    ensures o.key.Some? ==> HeldMalformed(before + [o], ids)
  {
    var after := before + [o];
    assert forall p :: p in after <==> p in before || p == o;
    if o.key.None? {
      assert o in after && o.id !in ids;
    }
  }

  // ----- planning, key by key -----

  /** The plan so far accounts for the malformed observations and for the keys in `done`. */
  ghost predicate PlannedFor(cards: seq<Card>, held: set<CardId>, owner: map<Key, CardId>, stableId: Key -> CardId,
                             observations: seq<Observation>, done: seq<Key>, plan: Plan)
  {
    && (forall m :: m in plan.moves <==>
          exists o :: o in observations && IsMoveOf(cards, held, owner, stableId, done, o, m))
    && (forall i, j :: 0 <= i < j < |plan.moves| ==> plan.moves[i].id != plan.moves[j].id)
    && (forall x :: x in plan.held <==> exists o :: o in observations && o.id == x && IsHeld(cards, held, done, o))
    && Distinct(plan.held)
    && (forall k :: k in plan.creates <==> k in done && k !in owner && exists o :: o in observations && InGroup(cards, held, o, k) && o.verified)
    && Distinct(plan.creates)
  }

  predicate IsMoveOf(cards: seq<Card>, held: set<CardId>, owner: map<Key, CardId>, stableId: Key -> CardId, done: seq<Key>,
                     o: Observation, m: Move)
  {
    FateOf(cards, held, o).Moves? && o.key.value in done && m == MoveOf(owner, stableId, o)
  }

  predicate IsHeld(cards: seq<Card>, held: set<CardId>, done: seq<Key>, o: Observation) {
    FateOf(cards, held, o).Malformed? || (FateOf(cards, held, o).Unverified? && o.key.value in done)
  }

  function MovesFor(owner: map<Key, CardId>, stableId: Key -> CardId, verified: seq<Observation>): seq<Move>
    requires forall o :: o in verified ==> o.key.Some?
  {
    seq(|verified|, i requires 0 <= i < |verified| => MoveOf(owner, stableId, verified[i]))
  }

  function UnverifiedIds(members: seq<Observation>): seq<ObservationId> {
    if members == [] then []
    else UnverifiedIds(members[..|members|-1]) + if members[|members|-1].verified then [] else [members[|members|-1].id]
  }

  lemma {:induction false} UnverifiedMembers(members: seq<Observation>)
    ensures forall x :: x in UnverifiedIds(members) <==> exists o :: o in members && o.id == x && !o.verified
    ensures DistinctIds(members) ==> Distinct(UnverifiedIds(members))
  {
    if members != [] {
      var front, last := members[..|members|-1], members[|members|-1];
      UnverifiedMembers(front);
      assert members == front + [last];
      assert forall o :: o in members <==> o in front || o == last;
      if DistinctIds(members) && !last.verified {
        assert forall o :: o in front ==> o.id != last.id;
        DistinctConcat(UnverifiedIds(front), [last.id]);
      }
    }
  }

  function WithKey(owner: map<Key, CardId>, stableId: Key -> CardId, key: Key, members: seq<Observation>, plan: Plan): Plan
    requires forall o :: o in VerifiedOf(members) ==> o.key.Some?
  {
    var verified := VerifiedOf(members);
    Plan(if verified != [] && key !in owner then plan.creates + [key] else plan.creates,
         plan.moves + MovesFor(owner, stableId, verified),
         plan.held + UnverifiedIds(members))
  }

  /** Exactly the observations of one key that are not at home. */
  ghost predicate MembersOf(cards: seq<Card>, held: set<CardId>, observations: seq<Observation>, key: Key, members: seq<Observation>) {
    && DistinctIds(members)
    && forall o :: o in members <==> o in observations && InGroup(cards, held, o, key)
  }

  lemma MovesWithKey(cards: seq<Card>, held: set<CardId>, owner: map<Key, CardId>, stableId: Key -> CardId,
                     observations: seq<Observation>, done: seq<Key>, plan: Plan, key: Key, members: seq<Observation>)
    requires DistinctIds(observations) && PlannedFor(cards, held, owner, stableId, observations, done, plan)
    requires key !in done && MembersOf(cards, held, observations, key, members)
    ensures forall o :: o in VerifiedOf(members) ==> o.key.Some?
    ensures var moves := plan.moves + MovesFor(owner, stableId, VerifiedOf(members));
      && (forall m :: m in moves <==>
            exists o :: o in observations && IsMoveOf(cards, held, owner, stableId, done + [key], o, m))
      && (forall i, j :: 0 <= i < j < |moves| ==> moves[i].id != moves[j].id)
  {
    VerifiedMembers(members);
    var verified := VerifiedOf(members);
    var added := MovesFor(owner, stableId, verified);
    var moves := plan.moves + added;
    forall m ensures m in added <==> exists o :: o in observations && IsMoveOf(cards, held, owner, stableId, [key], o, m) {
      if m in added {
        var i :| 0 <= i < |added| && added[i] == m;
        assert verified[i] in verified;
        assert IsMoveOf(cards, held, owner, stableId, [key], verified[i], m);
      }
      if o :| o in observations && IsMoveOf(cards, held, owner, stableId, [key], o, m) {
        assert o in verified;
        var i :| 0 <= i < |verified| && verified[i] == o;
        assert added[i] == m;
      }
    }
    forall m ensures m in moves <==> exists o :: o in observations && IsMoveOf(cards, held, owner, stableId, done + [key], o, m) {
      forall o ensures IsMoveOf(cards, held, owner, stableId, done + [key], o, m)
                       <==> IsMoveOf(cards, held, owner, stableId, done, o, m) || IsMoveOf(cards, held, owner, stableId, [key], o, m) {}
      hide IsMoveOf, FateOf;
      assert m in moves <==> m in plan.moves || m in added;
    }
    DistinctMoves(cards, held, owner, stableId, observations, done, plan, key, verified);
  }

  lemma DistinctMoves(cards: seq<Card>, held: set<CardId>, owner: map<Key, CardId>, stableId: Key -> CardId,
                      observations: seq<Observation>, done: seq<Key>, plan: Plan, key: Key, verified: seq<Observation>)
    requires DistinctIds(observations) && PlannedFor(cards, held, owner, stableId, observations, done, plan) && key !in done
    requires DistinctIds(verified) && forall o :: o in verified ==> o in observations && o.key == Some(key)
    ensures var moves := plan.moves + MovesFor(owner, stableId, verified);
      forall i, j :: 0 <= i < j < |moves| ==> moves[i].id != moves[j].id
  {
    var moves := plan.moves + MovesFor(owner, stableId, verified);
    var n := |plan.moves|;
    forall i, j | 0 <= i < j < |moves| ensures moves[i].id != moves[j].id {
      if i < n <= j {
        assert moves[i] in plan.moves;
        var o :| o in observations && IsMoveOf(cards, held, owner, stableId, done, o, moves[i]);
        var p := verified[j - n];
        assert p in verified && moves[j].id == p.id;
        assert o != p;
      } else if n <= i {
        assert moves[i].id == verified[i - n].id && moves[j].id == verified[j - n].id;
      }
    }
  }

  lemma HeldWithKey(cards: seq<Card>, held: set<CardId>, owner: map<Key, CardId>, stableId: Key -> CardId,
                    observations: seq<Observation>, done: seq<Key>, plan: Plan, key: Key, members: seq<Observation>)
    requires DistinctIds(observations) && PlannedFor(cards, held, owner, stableId, observations, done, plan)
    requires key !in done && MembersOf(cards, held, observations, key, members)
    ensures var ids := plan.held + UnverifiedIds(members);
      && (forall x :: x in ids <==> exists o :: o in observations && o.id == x && IsHeld(cards, held, done + [key], o))
      && Distinct(ids)
  {
    UnverifiedMembers(members);
    var added := UnverifiedIds(members);
    var ids := plan.held + added;
    forall x ensures x in ids <==> exists o :: o in observations && o.id == x && IsHeld(cards, held, done + [key], o) {
      if o :| o in observations && o.id == x && IsHeld(cards, held, done + [key], o) {
        if !IsHeld(cards, held, done, o) { assert o in members && !o.verified; }
      }
      if x in plan.held {
        var o :| o in observations && o.id == x && IsHeld(cards, held, done, o);
        assert IsHeld(cards, held, done + [key], o);
      }
      if x in added {
        var o :| o in members && o.id == x && !o.verified;
        assert IsHeld(cards, held, done + [key], o);
      }
    }
    AddedWereNotHeld(cards, held, owner, stableId, observations, done, plan, key, members);
    DistinctConcat(plan.held, added);
  }

  lemma AddedWereNotHeld(cards: seq<Card>, held: set<CardId>, owner: map<Key, CardId>, stableId: Key -> CardId,
                         observations: seq<Observation>, done: seq<Key>, plan: Plan, key: Key, members: seq<Observation>)
    requires DistinctIds(observations) && PlannedFor(cards, held, owner, stableId, observations, done, plan)
    requires key !in done && MembersOf(cards, held, observations, key, members)
    ensures forall x :: x in UnverifiedIds(members) ==> x !in plan.held
  {
    UnverifiedMembers(members);
    forall o, p | o in members && p in observations && IsHeld(cards, held, done, p) ensures o.id != p.id {
      assert o in observations && o.key == Some(key) && o != p;
    }
    hide IsHeld, MembersOf, Distinct, DistinctIds;
  }

  lemma CreatesWithKey(cards: seq<Card>, held: set<CardId>, owner: map<Key, CardId>, stableId: Key -> CardId,
                       observations: seq<Observation>, done: seq<Key>, plan: Plan, key: Key, members: seq<Observation>)
    requires PlannedFor(cards, held, owner, stableId, observations, done, plan)
    requires key !in done && MembersOf(cards, held, observations, key, members)
    ensures var creates := if VerifiedOf(members) != [] && key !in owner then plan.creates + [key] else plan.creates;
      && (forall k :: k in creates <==>
            k in done + [key] && k !in owner && exists o :: o in observations && InGroup(cards, held, o, k) && o.verified)
      && Distinct(creates)
  {
    VerifiedMembers(members);
    var verified := VerifiedOf(members);
    if verified != [] { assert verified[0] in verified; }
    assert verified != [] <==> exists o :: o in observations && InGroup(cards, held, o, key) && o.verified by {
      if o :| o in observations && InGroup(cards, held, o, key) && o.verified { assert o in verified; }
    }
    hide InGroup;
  }

  lemma KeyIsPlanned(cards: seq<Card>, held: set<CardId>, owner: map<Key, CardId>, stableId: Key -> CardId,
                     observations: seq<Observation>, done: seq<Key>, plan: Plan, key: Key, members: seq<Observation>)
    requires DistinctIds(observations) && PlannedFor(cards, held, owner, stableId, observations, done, plan)
    requires key !in done && MembersOf(cards, held, observations, key, members)
    ensures forall o :: o in VerifiedOf(members) ==> o.key.Some?
    ensures PlannedFor(cards, held, owner, stableId, observations, done + [key], WithKey(owner, stableId, key, members, plan))
  {
    MovesWithKey(cards, held, owner, stableId, observations, done, plan, key, members);
    HeldWithKey(cards, held, owner, stableId, observations, done, plan, key, members);
    CreatesWithKey(cards, held, owner, stableId, observations, done, plan, key, members);
    hide IsMoveOf, IsHeld, InGroup, MembersOf, MovesFor, VerifiedOf, UnverifiedIds, Distinct, DistinctIds;
  }

  lemma MalformedArePlanned(cards: seq<Card>, held: set<CardId>, owner: map<Key, CardId>, stableId: Key -> CardId,
                            observations: seq<Observation>, ids: seq<ObservationId>)
    requires HeldMalformed(observations, ids)
    ensures PlannedFor(cards, held, owner, stableId, observations, [], Plan([], [], ids))
  {
    forall x ensures x in ids <==> exists o :: o in observations && o.id == x && IsHeld(cards, held, [], o) {
      if o :| o in observations && o.id == x && IsHeld(cards, held, [], o) { assert o.key.None?; }
      if o :| o in observations && o.id == x && o.key.None? { assert IsHeld(cards, held, [], o); }
    }
  }

  lemma AllKeysPlanned(cards: seq<Card>, held: set<CardId>, owner: map<Key, CardId>, stableId: Key -> CardId,
                       observations: seq<Observation>, keys: seq<Key>, grouped: map<Key, seq<Observation>>, plan: Plan)
    requires Grouped(cards, held, observations, keys, grouped)
    requires PlannedFor(cards, held, owner, stableId, observations, keys, plan)
    ensures IsPlan(cards, held, owner, stableId, observations, plan)
  {
    AllMovesPlanned(cards, held, owner, stableId, observations, keys, grouped, plan);
    AllHeldPlanned(cards, held, owner, stableId, observations, keys, grouped, plan);
    AllCreatesPlanned(cards, held, owner, stableId, observations, keys, grouped, plan);
    hide PlannedFor, Grouped, MovesPlanned, HeldPlanned, CreatesPlanned;
  }

  lemma AllMovesPlanned(cards: seq<Card>, held: set<CardId>, owner: map<Key, CardId>, stableId: Key -> CardId,
                        observations: seq<Observation>, keys: seq<Key>, grouped: map<Key, seq<Observation>>, plan: Plan)
    requires Grouped(cards, held, observations, keys, grouped)
    requires PlannedFor(cards, held, owner, stableId, observations, keys, plan)
    ensures MovesPlanned(cards, held, owner, stableId, observations, plan.moves)
  {
    forall o | o in observations && FateOf(cards, held, o).Moves? ensures MoveOf(owner, stableId, o) in plan.moves {
      assert InGroup(cards, held, o, o.key.value);
      assert IsMoveOf(cards, held, owner, stableId, keys, o, MoveOf(owner, stableId, o));
    }
    forall m | m in plan.moves
      ensures exists o :: o in observations && FateOf(cards, held, o).Moves? && m == MoveOf(owner, stableId, o)
    {
      var o :| o in observations && IsMoveOf(cards, held, owner, stableId, keys, o, m);
    }
  }

  lemma AllHeldPlanned(cards: seq<Card>, held: set<CardId>, owner: map<Key, CardId>, stableId: Key -> CardId,
                       observations: seq<Observation>, keys: seq<Key>, grouped: map<Key, seq<Observation>>, plan: Plan)
    requires Grouped(cards, held, observations, keys, grouped)
    requires PlannedFor(cards, held, owner, stableId, observations, keys, plan)
    ensures HeldPlanned(cards, held, observations, plan.held)
  {
    forall o | o in observations
      ensures IsHeld(cards, held, keys, o) <==> FateOf(cards, held, o).Malformed? || FateOf(cards, held, o).Unverified?
    {
      if FateOf(cards, held, o).Unverified? { assert InGroup(cards, held, o, o.key.value); }
    }
    hide IsHeld, FateOf, Grouped, IsMoveOf;
  }

  lemma AllCreatesPlanned(cards: seq<Card>, held: set<CardId>, owner: map<Key, CardId>, stableId: Key -> CardId,
                          observations: seq<Observation>, keys: seq<Key>, grouped: map<Key, seq<Observation>>, plan: Plan)
    requires Grouped(cards, held, observations, keys, grouped)
    requires PlannedFor(cards, held, owner, stableId, observations, keys, plan)
    ensures CreatesPlanned(owner, plan.moves, plan.creates)
  {
    assert forall o :: o in observations && o.key.Some? && InGroup(cards, held, o, o.key.value) ==> o.key.value in keys;
    hide Grouped, IsHeld, OwnKeyIs, TargetOf;
    forall k ensures k in plan.creates <==> k !in owner && exists m :: m in plan.moves && m.key == k {
      if o :| o in observations && InGroup(cards, held, o, k) && o.verified {
        var m := MoveOf(owner, stableId, o);
        assert IsMoveOf(cards, held, owner, stableId, keys, o, m);
        assert m in plan.moves && m.key == k;
      }
      if m :| m in plan.moves && m.key == k {
        var o :| o in observations && IsMoveOf(cards, held, owner, stableId, keys, o, m);
        assert InGroup(cards, held, o, k) && o.verified;
      }
    }
  }

  /** The whole plan: group what is not at home by key, and give each group to its owner or to a new card. */
  method PlanRepair(cards: seq<Card>, held: set<CardId>, owner: map<Key, CardId>, stableId: Key -> CardId,
                    observations: seq<Observation>)
    returns (plan: Plan)
    requires DistinctIds(observations)
    ensures IsPlan(cards, held, owner, stableId, observations, plan)
    ensures forall o :: o in observations ==> Accounted(cards, held, owner, stableId, o, plan)
  {
    hide Grouped, HeldMalformed, PlannedFor, IsPlan, FateOf, Accounted;
    var keys: seq<Key>, grouped: map<Key, seq<Observation>>, ids: seq<ObservationId> := [], map[], [];
    NothingGrouped(cards, held);
    var k := 0;
    while k < |observations|
      invariant k <= |observations|
      invariant Grouped(cards, held, observations[..k], keys, grouped) && HeldMalformed(observations[..k], ids)
    {
      var o := observations[k];
      assert observations[..k+1] == observations[..k] + [o];
      assert forall p :: p in observations[..k] ==> p.id != o.id;
      GroupOne(cards, held, observations[..k], keys, grouped, o);
      HoldOne(observations[..k], ids, o);
      if o.key.None? {
        FateOfMalformed(cards, held, o);
        ids := ids + [o.id];
      } else if InGroup(cards, held, o, o.key.value) {
        var key := o.key.value;
        keys := if key in grouped then keys else keys + [key];
        grouped := grouped[key := (if key in grouped then grouped[key] else []) + [o]];
      }
      k := k + 1;
    }
    assert observations[..k] == observations;
    plan := Plan([], [], ids);
    MalformedArePlanned(cards, held, owner, stableId, observations, ids);
    var j := 0;
    while j < |keys|
      invariant j <= |keys| && PlannedFor(cards, held, owner, stableId, observations, keys[..j], plan)
    {
      var key := keys[j];
      GroupIsComplete(cards, held, observations, keys, grouped, j);
      KeyIsPlanned(cards, held, owner, stableId, observations, keys[..j], plan, key, grouped[key]);
      assert keys[..j+1] == keys[..j] + [key];
      plan := WithKey(owner, stableId, key, grouped[key], plan);
      j := j + 1;
    }
    assert keys[..j] == keys;
    AllKeysPlanned(cards, held, owner, stableId, observations, keys, grouped, plan);
    forall o | o in observations ensures Accounted(cards, held, owner, stableId, o, plan) {
      PlanAccounts(cards, held, owner, stableId, observations, plan, o);
    }
  }

  lemma NothingGrouped(cards: seq<Card>, held: set<CardId>)
    ensures Grouped(cards, held, [], [], map[]) && HeldMalformed([], [])
  {}

  lemma FateOfMalformed(cards: seq<Card>, held: set<CardId>, o: Observation)
    requires o.key.None?
    ensures FateOf(cards, held, o).Malformed?
  {}

  lemma GroupIsComplete(cards: seq<Card>, held: set<CardId>, observations: seq<Observation>, keys: seq<Key>,
                        grouped: map<Key, seq<Observation>>, j: nat)
    requires Grouped(cards, held, observations, keys, grouped) && j < |keys|
    ensures keys[j] in grouped && keys[j] !in keys[..j]
    ensures MembersOf(cards, held, observations, keys[j], grouped[keys[j]])
  {
    assert keys[j] in keys;
    hide FateOf;
  }
}

/** The order in which boards are probed: round after round, one board of every platform that still has one. */
module Interleave {

  datatype Platform = Platform(name: string)
  datatype Board = Board(platform: Platform, slug: string)

  /** The boards of one platform, in order. */
  function OfPlatform(s: seq<Board>, p: Platform): seq<Board> {
    if s == [] then []
    else if s[|s|-1].platform == p then OfPlatform(s[..|s|-1], p) + [s[|s|-1]]
    else OfPlatform(s[..|s|-1], p)
  }

  lemma OfPlatformPush(s: seq<Board>, b: Board, p: Platform)
    ensures OfPlatform(s + [b], p) == if b.platform == p then OfPlatform(s, p) + [b] else OfPlatform(s, p)
  {
    assert (s + [b])[..|s|] == s;
  }

  /** How many boards of its own platform come before position `i`: the round in which it is taken. */
  function RoundOf(s: seq<Board>, i: nat): nat
    requires i < |s|
  {
    |OfPlatform(s[..i], s[i].platform)|
  }

  /** No platform gets a further turn before every platform that has one coming has had it. */
  ghost predicate RoundRobin(s: seq<Board>) {
    forall i, j :: 0 <= i < j < |s| ==> RoundOf(s, i) <= RoundOf(s, j)
  }

  /** The first board of `p` comes before every board of `q`. */
  ghost predicate AppearsBefore(rows: seq<Board>, p: Platform, q: Platform) {
    exists k :: 0 <= k < |rows| && rows[k].platform == p && forall l :: 0 <= l <= k ==> rows[l].platform != q
  }

  /** Within a round, platforms take their turns in the order in which they first appear. */
  ghost predicate RoundsInOrder(rows: seq<Board>, s: seq<Board>) {
    forall i, j :: 0 <= i < j < |s| && RoundOf(s, i) == RoundOf(s, j) ==> AppearsBefore(rows, s[i].platform, s[j].platform)
  }

  /** No board is of a later round than `round`, and those of that round are of the first `j` platforms. */
  ghost predicate UpTo(s: seq<Board>, platforms: seq<Platform>, round: nat, j: nat) {
    forall i :: 0 <= i < |s| ==>
      RoundOf(s, i) <= round && (RoundOf(s, i) == round ==> exists l :: 0 <= l < j && l < |platforms| && platforms[l] == s[i].platform)
  }

  lemma RoundRobinPush(rows: seq<Board>, platforms: seq<Platform>, s: seq<Board>, b: Board, round: nat, j: nat)
    requires RoundRobin(s) && RoundsInOrder(rows, s) && UpTo(s, platforms, round, j)
    requires j < |platforms| && b.platform == platforms[j] && |OfPlatform(s, b.platform)| == round
    requires forall i, k :: 0 <= i < k < |platforms| ==> AppearsBefore(rows, platforms[i], platforms[k])
    ensures RoundRobin(s + [b]) && RoundsInOrder(rows, s + [b]) && UpTo(s + [b], platforms, round, j + 1)
  {
    var t := s + [b];
    forall i | 0 <= i < |t| ensures RoundOf(t, i) == if i < |s| then RoundOf(s, i) else round {
      if i < |s| { assert t[..i] == s[..i]; } else { assert t[..i] == s; }
    }
    hide RoundOf, AppearsBefore;
  }

  /** What the grouping pass has built: every platform once, with its boards. */
  ghost predicate Grouped(rows: seq<Board>, platforms: seq<Platform>, groups: map<Platform, seq<Board>>) {
    && (forall i, j :: 0 <= i < j < |platforms| ==> platforms[i] != platforms[j] && AppearsBefore(rows, platforms[i], platforms[j]))
    && (forall p :: p in groups <==> p in platforms)
    && (forall p :: if p in groups then groups[p] == OfPlatform(rows, p) != [] else OfPlatform(rows, p) == [])
  }

  function Prefix<T>(s: seq<T>, n: nat): seq<T> {
    if n < |s| then s[..n] else s
  }

  /** `index` full rounds are out, and the next one up to platform `j`. */
  ghost predicate Dealt(rows: seq<Board>, platforms: seq<Platform>, out: seq<Board>, index: nat, j: nat) {
    && (forall l :: 0 <= l < |platforms| ==>
          OfPlatform(out, platforms[l]) == Prefix(OfPlatform(rows, platforms[l]), if l < j then index + 1 else index))
    && (forall p :: p !in platforms ==> OfPlatform(out, p) == [])
  }

  lemma DealOne(rows: seq<Board>, platforms: seq<Platform>, out: seq<Board>, index: nat, j: nat)
    requires Dealt(rows, platforms, out, index, j) && j < |platforms|
    requires forall i, k :: 0 <= i < k < |platforms| ==> platforms[i] != platforms[k]
    requires index < |OfPlatform(rows, platforms[j])|
    ensures var b := OfPlatform(rows, platforms[j])[index];
      b.platform == platforms[j] && Dealt(rows, platforms, out + [b], index, j + 1)
      && |OfPlatform(out, b.platform)| == index
  {
    var mine := OfPlatform(rows, platforms[j]);
    var b := mine[index];
    OfPlatformMembers(rows, platforms[j], index);
    assert Prefix(mine, index) + [b] == Prefix(mine, index + 1);
    forall l | 0 <= l < |platforms|
      ensures OfPlatform(out + [b], platforms[l]) == Prefix(OfPlatform(rows, platforms[l]), if l < j + 1 then index + 1 else index)
    {
      OfPlatformPush(out, b, platforms[l]);
    }
    forall p | p !in platforms ensures OfPlatform(out + [b], p) == [] {
      OfPlatformPush(out, b, p);
    }
  }

  lemma SkipOne(rows: seq<Board>, platforms: seq<Platform>, out: seq<Board>, index: nat, j: nat)
    requires Dealt(rows, platforms, out, index, j) && j < |platforms|
    requires |OfPlatform(rows, platforms[j])| <= index
    ensures Dealt(rows, platforms, out, index, j + 1)
  {}

  lemma {:induction false} OfPlatformMembers(s: seq<Board>, p: Platform, i: nat)
    requires i < |OfPlatform(s, p)|
    ensures OfPlatform(s, p)[i].platform == p
  {
    if i < |OfPlatform(s[..|s|-1], p)| { OfPlatformMembers(s[..|s|-1], p, i); }
  }

  lemma {:induction false} NoMoreThanAll(s: seq<Board>, p: Platform)
    ensures |OfPlatform(s, p)| <= |s|
  {
    if s != [] { NoMoreThanAll(s[..|s|-1], p); }
  }

  /** The queue that is drained: each platform's boards in their own order and nothing else, dealt round by round. */
  method InterleaveByPlatform(rows: seq<Board>) returns (out: seq<Board>)
    ensures forall p :: OfPlatform(out, p) == OfPlatform(rows, p)
    ensures RoundRobin(out) && RoundsInOrder(rows, out)
    ensures multiset(out) == multiset(rows)
  {
    NothingGrouped();
    hide *;
    var platforms: seq<Platform>, groups: map<Platform, seq<Board>> := [], map[];
    var k := 0;
    while k < |rows|
      invariant 0 <= k <= |rows| && Grouped(rows[..k], platforms, groups)
    {
      var row := rows[k];
      assert rows[..k+1] == rows[..k] + [row];
      GroupOne(rows[..k], platforms, groups, row);
      if row.platform !in groups {
        platforms, groups := platforms + [row.platform], groups[row.platform := []];
      }
      groups := groups[row.platform := groups[row.platform] + [row]];
      k := k + 1;
    }
    assert rows[..k] == rows;

    out := [];
    var index, added := 0, true;
    NothingDealt(rows, platforms, groups);
    while added
      invariant Grouped(rows, platforms, groups) && Dealing(rows, platforms, out, index, 0)
      invariant index <= |rows| + if added then 0 else 1
      invariant !added ==> forall p :: |OfPlatform(rows, p)| <= index
      decreases |rows| + 1 - index, if added then 1 else 0
    {
      added := false;
      var j := 0;
      while j < |platforms|
        invariant j <= |platforms| && Dealing(rows, platforms, out, index, j)
        invariant added ==> index < |rows|
        invariant !added ==> forall l :: 0 <= l < j ==> |OfPlatform(rows, platforms[l])| <= index
      {
        DealNext(rows, platforms, groups, out, index, j);
        var list := groups[platforms[j]];
        if index < |list| {
          out := out + [list[index]];
          added := true;
        }
        j := j + 1;
      }
      RoundOver(rows, platforms, groups, out, index, added);
      index := index + 1;
    }
    AllDealt(rows, platforms, groups, out, index);
    SamePlatformsSameBoards(out, rows);
  }

  /** What holds in the middle of a round: `j` platforms had their turn in it. */
  ghost predicate Dealing(rows: seq<Board>, platforms: seq<Platform>, out: seq<Board>, index: nat, j: nat) {
    Dealt(rows, platforms, out, index, j) && RoundRobin(out) && RoundsInOrder(rows, out) && UpTo(out, platforms, index, j)
  }

  lemma NothingDealt(rows: seq<Board>, platforms: seq<Platform>, groups: map<Platform, seq<Board>>)
    requires Grouped(rows, platforms, groups)
    ensures Dealing(rows, platforms, [], 0, 0)
  {}

  lemma DealNext(rows: seq<Board>, platforms: seq<Platform>, groups: map<Platform, seq<Board>>, out: seq<Board>,
                 index: nat, j: nat)
    requires Grouped(rows, platforms, groups) && Dealing(rows, platforms, out, index, j) && j < |platforms|
    ensures platforms[j] in groups && groups[platforms[j]] == OfPlatform(rows, platforms[j])
    ensures |groups[platforms[j]]| <= |rows|
    ensures var list := groups[platforms[j]];
      Dealing(rows, platforms, if index < |list| then out + [list[index]] else out, index, j + 1)
  {
    hide RoundOf, OfPlatform, Dealt, RoundRobin, RoundsInOrder, UpTo, AppearsBefore;
    var list := groups[platforms[j]];
    NoMoreThanAll(rows, platforms[j]);
    if index < |list| {
      DealOne(rows, platforms, out, index, j);
      RoundRobinPush(rows, platforms, out, list[index], index, j);
    } else {
      SkipOne(rows, platforms, out, index, j);
      NextPlatform(out, platforms, index, j);
    }
  }

  lemma NextPlatform(s: seq<Board>, platforms: seq<Platform>, round: nat, j: nat)
    requires UpTo(s, platforms, round, j)
    ensures UpTo(s, platforms, round, j + 1)
  {
    hide RoundOf;
  }

  lemma NextRound(s: seq<Board>, platforms: seq<Platform>, round: nat, j: nat)
    requires UpTo(s, platforms, round, j)
    ensures UpTo(s, platforms, round + 1, 0)
  {
    hide RoundOf;
  }

  lemma StillBefore(rows: seq<Board>, row: Board, p: Platform, q: Platform)
    requires AppearsBefore(rows, p, q)
    ensures AppearsBefore(rows + [row], p, q)
  {
    var k :| 0 <= k < |rows| && rows[k].platform == p && forall l :: 0 <= l <= k ==> rows[l].platform != q;
    assert (rows + [row])[k] == rows[k];
    assert forall l :: 0 <= l <= k ==> (rows + [row])[l] == rows[l];
  }

  lemma {:induction false} IsAmongRows(rows: seq<Board>, p: Platform)
    ensures (exists k :: 0 <= k < |rows| && rows[k].platform == p) <==> OfPlatform(rows, p) != []
  {
    if rows != [] {
      var front, last := rows[..|rows|-1], rows[|rows|-1];
      assert rows == front + [last];
      IsAmongRows(front, p);
    }
  }

  /** A platform met for the first time comes after those met before. */
  lemma NewComesLast(rows: seq<Board>, row: Board, p: Platform)
    requires OfPlatform(rows, p) != [] && OfPlatform(rows, row.platform) == []
    ensures AppearsBefore(rows + [row], p, row.platform)
  {
    IsAmongRows(rows, p);
    IsAmongRows(rows, row.platform);
    hide OfPlatform;
    var k :| 0 <= k < |rows| && rows[k].platform == p;
    assert (rows + [row])[k].platform == p;
    assert forall l :: 0 <= l <= k ==> (rows + [row])[l] == rows[l];
  }

  lemma NothingGrouped()
    ensures Grouped([], [], map[])
  {}

  lemma GroupOne(rows: seq<Board>, platforms: seq<Platform>, groups: map<Platform, seq<Board>>, row: Board)
    requires Grouped(rows, platforms, groups)
    ensures var (ps, gs) := if row.platform in groups then (platforms, groups)
                            else (platforms + [row.platform], groups[row.platform := []]);
      Grouped(rows + [row], ps, gs[row.platform := gs[row.platform] + [row]])
  {
    forall p ensures OfPlatform(rows + [row], p) == if row.platform == p then OfPlatform(rows, p) + [row] else OfPlatform(rows, p) {
      OfPlatformPush(rows, row, p);
    }
    hide OfPlatform, AppearsBefore;
    forall i, j | 0 <= i < j < |platforms| ensures AppearsBefore(rows + [row], platforms[i], platforms[j]) {
      StillBefore(rows, row, platforms[i], platforms[j]);
    }
    if row.platform !in groups {
      forall i | 0 <= i < |platforms| ensures AppearsBefore(rows + [row], platforms[i], row.platform) {
        NewComesLast(rows, row, platforms[i]);
      }
    }
  }

  lemma RoundOver(rows: seq<Board>, platforms: seq<Platform>, groups: map<Platform, seq<Board>>, out: seq<Board>,
                  index: nat, added: bool)
    requires Grouped(rows, platforms, groups) && Dealing(rows, platforms, out, index, |platforms|)
    requires !added ==> forall l :: 0 <= l < |platforms| ==> |OfPlatform(rows, platforms[l])| <= index
    ensures Dealing(rows, platforms, out, index + 1, 0)
    ensures !added ==> forall p :: |OfPlatform(rows, p)| <= index + 1
  {
    NextRound(out, platforms, index, |platforms|);
    hide OfPlatform;
    if !added {
      forall p ensures |OfPlatform(rows, p)| <= index + 1 {
        if p in platforms { var l :| 0 <= l < |platforms| && platforms[l] == p; }
      }
    }
  }

  lemma AllDealt(rows: seq<Board>, platforms: seq<Platform>, groups: map<Platform, seq<Board>>, out: seq<Board>, index: nat)
    requires Grouped(rows, platforms, groups) && Dealing(rows, platforms, out, index, 0)
    requires forall p :: |OfPlatform(rows, p)| <= index
    ensures (forall p :: OfPlatform(out, p) == OfPlatform(rows, p)) && RoundRobin(out) && RoundsInOrder(rows, out)
  {
    hide OfPlatform;
    forall p ensures OfPlatform(out, p) == OfPlatform(rows, p) {
      if p in platforms { var l :| 0 <= l < |platforms| && platforms[l] == p; }
    }
  }

  lemma {:induction false} CountInPlatform(s: seq<Board>, b: Board)
    ensures multiset(s)[b] == multiset(OfPlatform(s, b.platform))[b]
  {
    if s != [] {
      var front, last := s[..|s|-1], s[|s|-1];
      assert s == front + [last];
      CountInPlatform(front, b);
    }
  }

  /** Equal in every platform means equal as collections. */
  lemma SamePlatformsSameBoards(a: seq<Board>, b: seq<Board>)
    requires forall p :: OfPlatform(a, p) == OfPlatform(b, p)
    ensures multiset(a) == multiset(b)
  {
    forall x ensures multiset(a)[x] == multiset(b)[x] {
      CountInPlatform(a, x);
      CountInPlatform(b, x);
    }
  }
}

/** Boards whose names differ only in capitals: which row a group keeps, and which rows it gives up. */
module CaseDuplicates {
  import opened Basics
  import opened Ordering

  datatype Slug = Slug(text: string)
  type Posting = nat

  datatype Variant = Variant(slug: Slug, active: bool, synchronizedAt: Option<int>, checkedAt: Option<int>, postings: set<Posting>)

  datatype Verdict = Retire | Survivor | DistinctBoard | Barren | Unjudgeable

  datatype Judgement = Judgement(slug: Slug, verdict: Verdict, survivor: Option<Slug>, shared: nat)

  const OVERLAP_FLOOR: real := 0.8
  const MIN_EVIDENCE: nat := 1

  predicate Eligible(v: Variant) {
    v.active && v.synchronizedAt.Some?
  }

  function Time(t: Option<int>): int {
    if t.Some? then t.value else 0
  }

  /** Latest synchronisation first, then more postings, then the later check, then the collation of the names. */
  predicate Stronger(collates: (Slug, Slug) -> bool, a: Variant, b: Variant) {
    if Time(a.synchronizedAt) != Time(b.synchronizedAt) then Time(a.synchronizedAt) > Time(b.synchronizedAt)
    else if |a.postings| != |b.postings| then |a.postings| > |b.postings|
    else if Time(a.checkedAt) != Time(b.checkedAt) then Time(a.checkedAt) > Time(b.checkedAt)
    else collates(a.slug, b.slug)
  }

  function Order(collates: (Slug, Slug) -> bool): (Variant, Variant) -> bool {
    (a: Variant, b: Variant) => Stronger(collates, a, b)
  }

  function EligibleOf(variants: seq<Variant>): seq<Variant> {
    if variants == [] then []
    else EligibleOf(variants[..|variants|-1]) + if Eligible(variants[|variants|-1]) then [variants[|variants|-1]] else []
  }

  lemma {:induction false} EligibleMembers(variants: seq<Variant>)
    ensures forall v :: v in EligibleOf(variants) <==> v in variants && Eligible(v)
    ensures forall v :: multiset(EligibleOf(variants))[v] == if Eligible(v) then multiset(variants)[v] else 0
  {
    if variants != [] {
      EligibleMembers(variants[..|variants|-1]);
      assert variants == variants[..|variants|-1] + [variants[|variants|-1]];
    }
  }

  function ChooseSurvivor(collates: (Slug, Slug) -> bool, variants: seq<Variant>): Option<Variant> {
    var eligible := EligibleOf(variants);
    if eligible == [] then None
    else
      SortIsAPermutation(eligible, Order(collates));
      Some(Sort(eligible, Order(collates))[0])
  }

  /** Names are compared by a strict total order, and a group lists each name once. */
  ghost predicate Comparable(collates: (Slug, Slug) -> bool, variants: seq<Variant>) {
    && (forall v, w :: v in variants && w in variants && v.slug == w.slug ==> v == w)
    && TotalOn(collates, Slugs(variants))
  }

  function Slugs(variants: seq<Variant>): seq<Slug> {
    seq(|variants|, k requires 0 <= k < |variants| => variants[k].slug)
  }

  lemma SlugsMembers(variants: seq<Variant>)
    ensures forall v :: v in variants ==> v.slug in Slugs(variants)
  {
    forall v | v in variants ensures v.slug in Slugs(variants) {
      var k :| 0 <= k < |variants| && variants[k] == v;
      assert Slugs(variants)[k] == v.slug;
    }
  }

  lemma StrongerComposes(collates: (Slug, Slug) -> bool, a: Variant, b: Variant, c: Variant)
    requires collates(a.slug, b.slug) && collates(b.slug, c.slug) ==> collates(a.slug, c.slug)
    ensures Stronger(collates, a, b) && Stronger(collates, b, c) ==> Stronger(collates, a, c)
  {}

  lemma EligibleAreRanked(collates: (Slug, Slug) -> bool, variants: seq<Variant>)
    requires Comparable(collates, variants)
    ensures TotalOn(Order(collates), EligibleOf(variants))
  {
    EligibleMembers(variants);
    SlugsMembers(variants);
    var group := EligibleOf(variants);
    assert forall v :: v in group ==> v in variants && v.slug in Slugs(variants);
    assert TotalOn(collates, Slugs(variants));
    hide EligibleOf, Slugs;
    forall v, w | v in group && w in group && v != w ensures Stronger(collates, v, w) || Stronger(collates, w, v) {
      assert v.slug != w.slug;
    }
    forall v, w | v in group && w in group && Stronger(collates, v, w) ensures !Stronger(collates, w, v) {}
    forall v, w, x | v in group && w in group && x in group && Stronger(collates, v, w) && Stronger(collates, w, x)
      ensures Stronger(collates, v, x)
    {
      StrongerComposes(collates, v, w, x);
    }
    hide Stronger, Comparable;
  }

  /** The survivor is the strongest eligible row; there is none exactly when no row is active and synchronised. */
  lemma SurvivorIsStrongest(collates: (Slug, Slug) -> bool, variants: seq<Variant>)
    requires Comparable(collates, variants)
    ensures var s := ChooseSurvivor(collates, variants);
      && (s.None? <==> forall v :: v in variants ==> !Eligible(v))
      && (s.Some? ==>
            && s.value in variants && Eligible(s.value)
            && forall v :: v in variants && Eligible(v) && v != s.value ==> Stronger(collates, s.value, v))
  {
    var eligible := EligibleOf(variants);
    EligibleMembers(variants);
    EligibleAreRanked(collates, variants);
    hide EligibleOf, TotalOn, Comparable;
    if eligible == [] {
      forall v | v in variants ensures !Eligible(v) { assert v !in eligible; }
    } else {
      FirstIsLeast(eligible, Order(collates));
    }
  }

  /** Which row that is: the one synchronised last; among equals the one with most postings; among those the one checked
      last; and among those the first by name. */
  lemma SurvivorIsLatest(collates: (Slug, Slug) -> bool, variants: seq<Variant>, v: Variant)
    requires Comparable(collates, variants) && v in variants && v.active && v.synchronizedAt.Some?
    ensures ChooseSurvivor(collates, variants).Some?
    ensures var s := ChooseSurvivor(collates, variants).value;
            var checked, sChecked := (if v.checkedAt.Some? then v.checkedAt.value else 0),
                                     (if s.checkedAt.Some? then s.checkedAt.value else 0);
      && s.active && s.synchronizedAt.Some? && s.synchronizedAt.value >= v.synchronizedAt.value
      && (s.synchronizedAt == v.synchronizedAt ==> |s.postings| >= |v.postings|)
      && (s.synchronizedAt == v.synchronizedAt && |s.postings| == |v.postings| ==> sChecked >= checked)
      && (s.synchronizedAt == v.synchronizedAt && |s.postings| == |v.postings| && sChecked == checked && s != v ==>
            collates(s.slug, v.slug))
  {
    SurvivorIsStrongest(collates, variants);
    hide ChooseSurvivor, Comparable;
  }

  /** Two runs over the same rows keep the same one, in whatever order the rows arrive. */
  lemma SurvivorIgnoresInputOrder(collates: (Slug, Slug) -> bool, variants: seq<Variant>, again: seq<Variant>)
    requires Comparable(collates, variants) && multiset(variants) == multiset(again)
    ensures ChooseSurvivor(collates, again) == ChooseSurvivor(collates, variants)
  {
    EligibleMembers(variants);
    EligibleMembers(again);
    var a, b := EligibleOf(variants), EligibleOf(again);
    assert multiset(a) == multiset(b);
    EligibleAreRanked(collates, variants);
    hide EligibleOf, TotalOn, Comparable;
    if a == [] {
      assert |multiset(b)| == 0;
    } else {
      FirstIgnoresInputOrder(a, b, Order(collates));
    }
  }

  // ----- judging a group -----

  /** Four fifths of what a row returned was returned by the survivor too. */
  predicate MostlyShared(v: Variant, survivor: Variant) {
    5 * |v.postings * survivor.postings| >= 4 * |v.postings|
  }

  function VerdictOf(v: Variant, survivor: Option<Variant>): Verdict {
    if survivor.None? then Unjudgeable
    else if v.slug == survivor.value.slug then Survivor
    else if |v.postings| < MIN_EVIDENCE then Barren
    else if MostlyShared(v, survivor.value) then Retire
    else DistinctBoard
  }

  lemma ShareAsFraction(shared: nat, count: nat)
    requires count > 0
    ensures shared as real / count as real >= OVERLAP_FLOOR <==> 5 * shared >= 4 * count
  {
    var x := shared as real / count as real;
    assert x * count as real == shared as real;
    ScaledOrder(x, 0.8, count as real);
  }

  /** One judgement per row, in order; a row is retired exactly when another row of its group survives it, it returned
      something, and the survivor returned at least four fifths of that. */
  method Judge(collates: (Slug, Slug) -> bool, variants: seq<Variant>) returns (judgements: seq<Judgement>)
    requires Comparable(collates, variants)
    ensures |judgements| == |variants|
    ensures forall k :: 0 <= k < |variants| ==>
              && judgements[k].slug == variants[k].slug
              && judgements[k].verdict == VerdictOf(variants[k], ChooseSurvivor(collates, variants))
    ensures forall k :: 0 <= k < |variants| && judgements[k].verdict.Retire? ==>
              exists s :: s in variants && Eligible(s) && RetiredFor(variants[k], s, judgements[k])
    ensures forall k :: 0 <= k < |variants| ==> JudgedBy(variants[k], ChooseSurvivor(collates, variants), judgements[k])
  {
    SurvivorIsStrongest(collates, variants);
    hide ChooseSurvivor, Comparable, Stronger, IsJudged, JudgedBy, VerdictOf;
    var survivor := ChooseSurvivor(collates, variants);
    judgements := [];
    var k := 0;
    while k < |variants|
      invariant k == |judgements| <= |variants|
      invariant forall j :: 0 <= j < k ==> IsJudged(variants[j], survivor, judgements[j])
    {
      var judgement := JudgeRow(variants[k], survivor);
      judgements := judgements + [judgement];
      k := k + 1;
    }
    forall j | 0 <= j < |variants|
      ensures judgements[j].slug == variants[j].slug && judgements[j].verdict == VerdictOf(variants[j], survivor)
      ensures judgements[j].verdict.Retire? ==> survivor.Some? && RetiredFor(variants[j], survivor.value, judgements[j])
      ensures JudgedBy(variants[j], survivor, judgements[j])
    {
      JudgedMeans(variants[j], survivor, judgements[j]);
    }
  }

  /** Another row outlives this one and returned four fifths of what this one returned. */
  predicate RetiredFor(v: Variant, s: Variant, j: Judgement) {
    && j.survivor == Some(s.slug) && s.slug != v.slug
    && j.shared == |v.postings * s.postings| && 5 * j.shared >= 4 * |v.postings| > 0
  }

  /** One row against the survivor, if there is one: the survivor itself; a row that returned nothing; a row to retire, as
      at least four fifths of its postings are the survivor's too; or a board of its own. */
  predicate JudgedBy(v: Variant, survivor: Option<Variant>, j: Judgement) {
    match survivor
    case None => j == Judgement(v.slug, Unjudgeable, None, 0)
    case Some(s) =>
      if v.slug == s.slug then j == Judgement(v.slug, Survivor, Some(s.slug), |v.postings|)
      else if v.postings == {} then j == Judgement(v.slug, Barren, Some(s.slug), 0)
      else
        var shared := |v.postings * s.postings|;
        j == Judgement(v.slug, if 5 * shared >= 4 * |v.postings| then Retire else DistinctBoard, Some(s.slug), shared)
  }

  lemma JudgedMeans(v: Variant, survivor: Option<Variant>, j: Judgement)
    requires IsJudged(v, survivor, j)
    ensures JudgedBy(v, survivor, j)
    ensures j.slug == v.slug && j.verdict == VerdictOf(v, survivor)
    ensures j.verdict.Retire? ==> survivor.Some? && RetiredFor(v, survivor.value, j)
  {}

  predicate IsJudged(v: Variant, survivor: Option<Variant>, j: Judgement) {
    && j.slug == v.slug && j.verdict == VerdictOf(v, survivor)
    && j.survivor == (if survivor.None? then None else Some(survivor.value.slug))
    && j.shared == (if j.verdict.Survivor? then |v.postings|
                    else if j.verdict.Retire? || j.verdict.DistinctBoard? then |v.postings * survivor.value.postings| else 0)
  }

  method JudgeRow(v: Variant, survivor: Option<Variant>) returns (j: Judgement)
    ensures IsJudged(v, survivor, j)
  {
    if survivor.None? { return Judgement(v.slug, Unjudgeable, None, 0); }
    if v.slug == survivor.value.slug { return Judgement(v.slug, Survivor, Some(v.slug), |v.postings|); }
    if |v.postings| < MIN_EVIDENCE { return Judgement(v.slug, Barren, Some(survivor.value.slug), 0); }
    var shared := |v.postings * survivor.value.postings|;
    ShareAsFraction(shared, |v.postings|);
    var verdict := if shared as real / |v.postings| as real >= OVERLAP_FLOOR then Retire else DistinctBoard;
    j := Judgement(v.slug, verdict, Some(survivor.value.slug), shared);
  }

  function RetiredSlugs(collates: (Slug, Slug) -> bool, variants: seq<Variant>): set<Slug> {
    set v | v in variants && VerdictOf(v, ChooseSurvivor(collates, variants)).Retire? :: v.slug
  }

  /** The retirement loop sets the rows of the retired names to excluded, and touches no other. */
  function AfterRetirement(collates: (Slug, Slug) -> bool, variants: seq<Variant>): seq<Variant> {
    seq(|variants|, k requires 0 <= k < |variants| =>
      if variants[k].slug in RetiredSlugs(collates, variants) then variants[k].(active := false) else variants[k])
  }

  /** A group that loses a row keeps its survivor, still active, and at most a fifth of the lost row's postings are not
      there too. */
  lemma RetirementIsSafe(collates: (Slug, Slug) -> bool, variants: seq<Variant>, v: Variant)
    requires Comparable(collates, variants) && v in variants && v.slug in RetiredSlugs(collates, variants)
    ensures var s := ChooseSurvivor(collates, variants);
      && s.Some? && s.value in AfterRetirement(collates, variants) && s.value.active
      && s.value.slug !in RetiredSlugs(collates, variants)
      && 5 * |v.postings - s.value.postings| <= |v.postings|
  {
    SurvivorIsStrongest(collates, variants);
    var s := ChooseSurvivor(collates, variants);
    var w :| w in variants && VerdictOf(w, s).Retire? && w.slug == v.slug;
    assert w == v;
    hide ChooseSurvivor, Stronger;
    var k :| 0 <= k < |variants| && variants[k] == s.value;
    assert s.value.slug !in RetiredSlugs(collates, variants);
    assert AfterRetirement(collates, variants)[k] == s.value;
    var a, b := v.postings - s.value.postings, v.postings * s.value.postings;
    assert v.postings == a + b && a !! b;
  }

  /** Whoever is stronger than every other eligible row is the survivor. */
  lemma StrongestIsChosen(collates: (Slug, Slug) -> bool, variants: seq<Variant>, s: Variant)
    requires Comparable(collates, variants) && s in variants && Eligible(s)
    requires forall v :: v in variants && Eligible(v) && v != s ==> Stronger(collates, s, v)
    ensures ChooseSurvivor(collates, variants) == Some(s)
  {
    SurvivorIsStrongest(collates, variants);
    EligibleAreRanked(collates, variants);
    EligibleMembers(variants);
    var t := ChooseSurvivor(collates, variants).value;
    assert t in EligibleOf(variants) && s in EligibleOf(variants);
    hide ChooseSurvivor, EligibleOf, Comparable, Stronger;
    assert Order(collates)(t, s) ==> !Order(collates)(s, t);
  }

  lemma RetirementKeepsRows(collates: (Slug, Slug) -> bool, variants: seq<Variant>)
    requires Comparable(collates, variants)
    ensures Comparable(collates, AfterRetirement(collates, variants))
    ensures forall v :: v in AfterRetirement(collates, variants) && Eligible(v) ==> v in variants
  {
    var after := AfterRetirement(collates, variants);
    assert Slugs(after) == Slugs(variants);
    forall v, w | v in after && w in after && v.slug == w.slug ensures v == w {
      var i :| 0 <= i < |after| && after[i] == v;
      var j :| 0 <= j < |after| && after[j] == w;
      assert variants[i] in variants && variants[j] in variants;
    }
    hide ChooseSurvivor, VerdictOf, TotalOn;
  }

  /** Judging the group again after its rows were retired keeps the same survivor, so a repeated run retires nothing
      new on that account. */
  lemma SurvivorStaysChosen(collates: (Slug, Slug) -> bool, variants: seq<Variant>)
    requires Comparable(collates, variants) && ChooseSurvivor(collates, variants).Some?
    ensures ChooseSurvivor(collates, AfterRetirement(collates, variants)) == ChooseSurvivor(collates, variants)
  {
    SurvivorIsStrongest(collates, variants);
    var s := ChooseSurvivor(collates, variants).value;
    RetirementKeepsRows(collates, variants);
    var k :| 0 <= k < |variants| && variants[k] == s;
    assert s.slug !in RetiredSlugs(collates, variants);
    assert AfterRetirement(collates, variants)[k] == s;
    hide ChooseSurvivor, VerdictOf, Comparable, Stronger, AfterRetirement;
    StrongestIsChosen(collates, AfterRetirement(collates, variants), s);
  }
}

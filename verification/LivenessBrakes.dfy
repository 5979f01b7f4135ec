/** The brakes on retirement, as shares of what was swept, and the boards a sweep may change. */
module LivenessBrakes {
  import opened Basics
  import opened Interleave
  import opened ProbePool

  const MAX_INCONCLUSIVE_SHARE: real := 0.15
  const MAX_PLATFORM_SHARE_FACTOR: real := 3.0

  datatype Brake = Released | NothingSwept | TooInconclusive | Dominated(platform: Platform)

  type Tally = seq<(Platform, nat)>

  function Total(t: Tally): nat {
    if t == [] then 0 else Total(t[..|t|-1]) + t[|t|-1].1
  }

  /** One platform holds more than three times its share: its part of the retirements against its part of the sweep. */
  predicate Dominates(swept: map<Platform, nat>, total: nat, retiring: nat, entry: (Platform, nat)) {
    entry.0 in swept && swept[entry.0] > 0 && entry.1 * total > 3 * (swept[entry.0] * retiring)
  }

  lemma ShareAsFraction(a: nat, b: nat, c: nat, d: nat)
    requires b > 0 && d > 0
    ensures a as real / b as real > (c as real / d as real) * MAX_PLATFORM_SHARE_FACTOR <==> a * d > 3 * (c * b)
  {
    var x, y := a as real / b as real, c as real / d as real;
    assert x * b as real == a as real && y * d as real == c as real;
    var bd := b as real * d as real;
    assert bd > 0.0;
    assert x * bd == a as real * d as real by { assert x * bd == (x * b as real) * d as real; }
    assert (y * 3.0) * bd == 3.0 * (c as real * b as real) by { assert (y * 3.0) * bd == 3.0 * ((y * d as real) * b as real); }
    ScaledOrder(x, y * 3.0, bd);
    ProductCast(a, d);
    ProductCast(c, b);
  }

  lemma ProductCast(a: nat, b: nat)
    ensures (a * b) as real == a as real * b as real
  {}

  lemma InconclusiveAsFraction(inconclusive: nat, swept: nat)
    requires swept > 0
    ensures inconclusive as real / swept as real > MAX_INCONCLUSIVE_SHARE <==> 100 * inconclusive > 15 * swept
  {
    var x := inconclusive as real / swept as real;
    assert x * swept as real == inconclusive as real;
    ScaledOrder(x, 0.15, swept as real);
  }

  /** Retirement goes ahead exactly when something was swept, at most 15 % of it was inconclusive, and no platform that
      was swept holds more than three times its share of the proposed retirements. The named platform is the first
      that does. */
  method CheckLivenessBrakes(sweptByPlatform: map<Platform, nat>, retiringByPlatform: Tally, swept: nat, inconclusive: nat)
    returns (brake: Brake)
    ensures brake.Released? <==>
              && swept > 0 && 100 * inconclusive <= 15 * swept
              && forall k :: 0 <= k < |retiringByPlatform| ==>
                   !Dominates(sweptByPlatform, swept, Total(retiringByPlatform), retiringByPlatform[k])
    ensures brake.NothingSwept? <==> swept == 0
    ensures brake.TooInconclusive? <==> swept > 0 && 100 * inconclusive > 15 * swept
    ensures brake.Dominated? ==>
              exists k :: 0 <= k < |retiringByPlatform| && retiringByPlatform[k].0 == brake.platform
                && Dominates(sweptByPlatform, swept, Total(retiringByPlatform), retiringByPlatform[k])
                && forall j :: 0 <= j < k ==>
                     !Dominates(sweptByPlatform, swept, Total(retiringByPlatform), retiringByPlatform[j])
  {
    if swept == 0 { return NothingSwept; }
    InconclusiveAsFraction(inconclusive, swept);
    if inconclusive as real / swept as real > MAX_INCONCLUSIVE_SHARE { return TooInconclusive; }
    var retiring, k := 0, 0;
    while k < |retiringByPlatform|
      invariant k <= |retiringByPlatform| && retiring == Total(retiringByPlatform[..k])
    {
      assert retiringByPlatform[..k+1][..k] == retiringByPlatform[..k];
      retiring := retiring + retiringByPlatform[k].1;
      k := k + 1;
    }
    assert retiringByPlatform[..k] == retiringByPlatform;
    if retiring == 0 {
      NothingRetires(retiringByPlatform, sweptByPlatform, swept);
      return Released;
    }
    k := 0;
    while k < |retiringByPlatform|
      invariant k <= |retiringByPlatform|
      invariant forall j :: 0 <= j < k ==> !Dominates(sweptByPlatform, swept, retiring, retiringByPlatform[j])
    {
      hide Total;
      var (platform, count) := retiringByPlatform[k];
      var population := if platform in sweptByPlatform then sweptByPlatform[platform] else 0;
      if population != 0 {
        ShareAsFraction(count, retiring, population, swept);
        if count as real / retiring as real > (population as real / swept as real) * MAX_PLATFORM_SHARE_FACTOR {
          return Dominated(platform);
        }
      }
      k := k + 1;
    }
    brake := Released;
  }

  lemma {:induction false} PartOfTotal(t: Tally, k: nat)
    requires k < |t|
    ensures t[k].1 <= Total(t)
  {
    if k < |t| - 1 { PartOfTotal(t[..|t|-1], k); }
  }

  lemma NothingRetires(t: Tally, swept: map<Platform, nat>, total: nat)
    requires Total(t) == 0
    ensures forall k :: 0 <= k < |t| ==> !Dominates(swept, total, 0, t[k])
  {
    forall k | 0 <= k < |t| ensures !Dominates(swept, total, 0, t[k]) { PartOfTotal(t, k); }
  }

  /** The share brake is one on minorities: a platform with a third of the sweep can hold every retirement. */
  lemma OnlyMinoritiesDominate(swept: map<Platform, nat>, total: nat, t: Tally, k: nat)
    requires k < |t| && Dominates(swept, total, Total(t), t[k])
    ensures t[k].0 in swept && 3 * swept[t[k].0] < total
  {
    PartOfTotal(t, k);
    OnlyAThird(t[k].1, Total(t), total, swept[t[k].0]);
  }

  lemma OnlyAThird(part: nat, retiring: nat, total: nat, population: nat)
    requires part <= retiring && part * total > 3 * (population * retiring)
    ensures 3 * population < total
  {
    assert (3 * population) * retiring == 3 * (population * retiring);
    if 3 * population >= total { Monotone(part, retiring, total, 3 * population); }
  }

  lemma Monotone(a: nat, b: nat, c: nat, d: nat)
    requires a <= b && c <= d
    ensures a * c <= d * b
  {
    assert a * c <= b * c;
    assert b * c <= b * d;
  }

  // ----- what a sweep may change -----

  predicate Promotable(o: Outcome, postings: nat) {
    o.Alive? && postings > 0
  }

  predicate IsInconclusive(o: Outcome) {
    o.RateLimited? || o.ProviderBackoff? || o.SweepBudget? || o.Unreachable? || o.Timeout? || o.ServerError?
  }

  /** `excludes` is the board's own history: whether it allows calling the board absent. */
  predicate Retirable(o: Outcome, excludes: bool) {
    ShowsAbsence(o) && excludes
  }

  /** Selection by what was answered. Promoted: a response of the platform's kind from the board's own host, below 400, with
      postings. Retired: a 404, a 410, another host, or an own-host page of another kind, but never a 429, and only when
      the board's history allows it. Inconclusive: no response, a 429, or an own-host server error. */
  lemma SelectionByAnswer(a: Answer, postings: nat, excludes: bool)
    ensures Promotable(OutcomeOf(a), postings) <==> a.Response? && !a.offHost && a.status < 400 && a.ownKind && postings > 0
    ensures Retirable(OutcomeOf(a), excludes) <==>
      && excludes && a.Response? && a.status != 429
      && (a.status == 404 || a.status == 410 || a.offHost || (a.status < 400 && !a.ownKind))
    ensures IsInconclusive(OutcomeOf(a)) <==> !a.Response? || a.status == 429 || (!a.offHost && a.status >= 500)
    ensures IsInconclusive(SweepBudget) && IsInconclusive(ProviderBackoff)
  {}

  /** No board is promoted and retired at once, none is changed on inconclusive evidence, and whatever is retired was
      contacted by this sweep, before any refusal of its platform. */
  lemma SelectionsAreDisjoint(s: Setting, p: Pool, i: nat, postings: nat, excludes: bool)
    requires Valid(s, p) && i in p.outcomes
    ensures !(Promotable(p.outcomes[i], postings) && Retirable(p.outcomes[i], excludes))
    ensures IsInconclusive(p.outcomes[i]) ==> !Promotable(p.outcomes[i], postings) && !Retirable(p.outcomes[i], excludes)
    ensures Retirable(p.outcomes[i], excludes) || Promotable(p.outcomes[i], postings) ==> Start(i) in p.log
    ensures Retirable(p.outcomes[i], excludes) ==>
              forall a, b :: 0 <= a < b < |p.log| && p.log[a].Refusal? && p.log[b] == Start(i) ==>
                i < |s.queue| && s.queue[i].platform != p.log[a].platform
  {
    if Retirable(p.outcomes[i], excludes) { AbsenceWasObserved(s, p, i); }
    assert Contacted(p);
    hide Partition, OnePerPlatform, History;
  }
}

/** InvestmentPlanPromotionGrant (core/models.py): the validity window, the
    bonus arithmetic, and which grants a subscription collects. */
module Grants {
  import opened Common

  datatype Grant = Grant(
    plan: nat,
    grantType: string,
    name: string,
    description: string,
    grantAmount: Option<real>,
    grantPercentage: Option<real>,
    minimumInvestmentRequired: real,
    maximumGrantPerUser: Option<real>,
    validFrom: int,
    validUntil: int,
    isActive: bool,
    createdAt: int)

  /** `is_valid_now`: active, and `now` inside the window, both ends included. */
  predicate IsValidNow(g: Grant, now: int)
  {
    g.isActive && g.validFrom <= now <= g.validUntil
  }

  /** Both ends of the window count; one second outside either end does not. */
  lemma WindowInclusive(g: Grant)
    requires g.isActive && g.validFrom <= g.validUntil
    ensures IsValidNow(g, g.validFrom) && IsValidNow(g, g.validUntil)
    ensures !IsValidNow(g, g.validFrom - 1) && !IsValidNow(g, g.validUntil + 1)
  {
  }

  /** The bonus before the per-user cap: a nonzero fixed amount wins over a
      percentage; zero counts as unset. */
  function UncappedGrant(g: Grant, investment: real): real
  {
    if Truthy(g.grantAmount) then Min(g.grantAmount.value, investment)
    else if Truthy(g.grantPercentage) then investment * g.grantPercentage.value / 100.0
    else 0.0
  }

  /** `calculate_grant_amount(investment)` at time `now`. */
  function CalculateGrantAmount(g: Grant, investment: real, now: int): (r: real)
    ensures !IsValidNow(g, now) ==> r == 0.0
    ensures IsValidNow(g, now) && Truthy(g.grantAmount) ==> r <= g.grantAmount.value && r <= investment
    ensures IsValidNow(g, now) && Truthy(g.maximumGrantPerUser) ==> r <= g.maximumGrantPerUser.value
    ensures IsValidNow(g, now) && !Truthy(g.maximumGrantPerUser) ==> r == UncappedGrant(g, investment)
    ensures IsValidNow(g, now) && Truthy(g.maximumGrantPerUser) ==>
              r == Min(UncappedGrant(g, investment), g.maximumGrantPerUser.value)
  {
    if !IsValidNow(g, now) then 0.0
    else
      var grant := UncappedGrant(g, investment);
      if Truthy(g.maximumGrantPerUser) then Min(grant, g.maximumGrantPerUser.value) else grant
  }

  /** A fixed amount F yields min(F, investment), whatever percentage is set. */
  lemma FixedAmountWins(g: Grant, investment: real, now: int)
    requires IsValidNow(g, now) && Truthy(g.grantAmount) && !Truthy(g.maximumGrantPerUser)
    ensures CalculateGrantAmount(g, investment, now) == Min(g.grantAmount.value, investment)
    ensures CalculateGrantAmount(g, investment, now) == CalculateGrantAmount(g.(grantPercentage := None), investment, now)
  {
  }

  /** With no fixed amount, a percentage P yields min(investment * P / 100, cap). */
  lemma PercentageGrant(g: Grant, investment: real, now: int)
    requires IsValidNow(g, now) && !Truthy(g.grantAmount) && Truthy(g.grantPercentage)
    ensures var share := investment * g.grantPercentage.value / 100.0;
      CalculateGrantAmount(g, investment, now) == (if Truthy(g.maximumGrantPerUser) then Min(share, g.maximumGrantPerUser.value) else share)
  {
  }

  /** Neither amount nor percentage set: nothing, unless a negative cap is the smaller. */
  lemma NoAmountNoGrant(g: Grant, investment: real, now: int)
    requires !Truthy(g.grantAmount) && !Truthy(g.grantPercentage)
    requires !Truthy(g.maximumGrantPerUser) || g.maximumGrantPerUser.value >= 0.0
    ensures CalculateGrantAmount(g, investment, now) == 0.0
  {
  }

  /** A zero cap is no cap. */
  lemma ZeroCapIsNoCap(g: Grant, investment: real, now: int)
    ensures CalculateGrantAmount(g.(maximumGrantPerUser := Some(0.0)), investment, now)
         == CalculateGrantAmount(g.(maximumGrantPerUser := None), investment, now)
  {
  }

  /** With non-negative settings and investment, the bonus never exceeds the
      investment when fixed, and is never negative. */
  lemma GrantBounds(g: Grant, investment: real, now: int)
    requires investment >= 0.0
    requires g.grantAmount.Some? ==> g.grantAmount.value >= 0.0
    requires g.grantPercentage.Some? ==> 0.0 <= g.grantPercentage.value <= 100.0
    requires g.maximumGrantPerUser.Some? ==> g.maximumGrantPerUser.value >= 0.0
    ensures 0.0 <= CalculateGrantAmount(g, investment, now) <= investment
  {
    if IsValidNow(g, now) && !Truthy(g.grantAmount) && Truthy(g.grantPercentage) {
      var share := investment * g.grantPercentage.value / 100.0;
      ShareBounds(investment, g.grantPercentage.value, share);
      assert UncappedGrant(g, investment) == share;
    }
  }

  /** A share of at most 100 percent lies between 0 and the whole. */
  lemma ShareBounds(x: real, p: real, share: real)
    requires x >= 0.0 && 0.0 <= p <= 100.0 && share == x * p / 100.0
    ensures 0.0 <= share <= x
  {
    var product := x * p;
    assert x * (100.0 - p) >= 0.0;
    assert x * (100.0 - p) == x * 100.0 - product;
    assert 0.0 <= product <= x * 100.0;
    assert product / 100.0 <= x * 100.0 / 100.0;
  }

  /** The queryset the subscribe view loops over: the plan's grants that are
      active, in their window, and whose gate the investment meets. */
  predicate Applicable(g: Grant, plan: nat, investment: real, now: int)
  {
    g.plan == plan && IsValidNow(g, now) && g.minimumInvestmentRequired <= investment
  }

  function ApplicableGrants(gs: seq<Grant>, plan: nat, investment: real, now: int): (r: seq<Grant>)
    ensures |r| <= |gs|
    ensures forall g :: g in r <==> g in gs && Applicable(g, plan, investment, now)
    ensures forall g :: multiset(r)[g] == if Applicable(g, plan, investment, now) then multiset(gs)[g] else 0
  {
    if gs == [] then []
    else
      var rest := ApplicableGrants(gs[1..], plan, investment, now);
      assert forall g :: g in gs <==> g == gs[0] || g in gs[1..];
      assert gs == [gs[0]] + gs[1..];
      if Applicable(gs[0], plan, investment, now) then [gs[0]] + rest else rest
  }

  /** The bonus the view credits: the sum of each grant's amount when positive. */
  function PositiveGrantSum(gs: seq<Grant>, investment: real, now: int): (t: real)
    ensures t >= 0.0
  {
    if gs == [] then 0.0
    else
      var last := CalculateGrantAmount(gs[|gs| - 1], investment, now);
      PositiveGrantSum(gs[..|gs| - 1], investment, now) + (if last > 0.0 then last else 0.0)
  }

  /** Grants combine additively: the total over two lists is the sum of the totals. */
  lemma {:induction false} PositiveGrantSumAppend(a: seq<Grant>, b: seq<Grant>, investment: real, now: int)
    ensures PositiveGrantSum(a + b, investment, now) == PositiveGrantSum(a, investment, now) + PositiveGrantSum(b, investment, now)
  {
    if b == [] {
      assert a + b == a;
    } else {
      assert (a + b)[..|a + b| - 1] == a + b[..|b| - 1];
      PositiveGrantSumAppend(a, b[..|b| - 1], investment, now);
    }
  }

  /** Swapping two blocks of grants does not change the total. */
  lemma PositiveGrantSumSwap(a: seq<Grant>, b: seq<Grant>, investment: real, now: int)
    ensures PositiveGrantSum(a + b, investment, now) == PositiveGrantSum(b + a, investment, now)
  {
    PositiveGrantSumAppend(a, b, investment, now);
    PositiveGrantSumAppend(b, a, investment, now);
  }

  /** Taking one grant out of a list moves the total by that grant's share. */
  lemma PositiveGrantSumRemove(pre: seq<Grant>, x: Grant, post: seq<Grant>, investment: real, now: int)
    ensures PositiveGrantSum(pre + ([x] + post), investment, now)
         == PositiveGrantSum(pre + post, investment, now) + PositiveGrantSum([x], investment, now)
  {
    PositiveGrantSumAppend(pre, [x] + post, investment, now);
    PositiveGrantSumAppend([x], post, investment, now);
    PositiveGrantSumAppend(pre, post, investment, now);
  }

  /** A grant that occurs in a list sits at some index; removing it there
      leaves the others, each as often. */
  lemma RemoveAtMultiset(b: seq<Grant>, x: Grant) returns (k: nat)
    requires x in multiset(b)
    ensures k < |b| && b[k] == x
    ensures b == b[..k] + ([x] + b[k + 1..])
    ensures multiset(b[..k] + b[k + 1..]) == multiset(b) - multiset{x}
  {
    assert x in b;
    k :| 0 <= k < |b| && b[k] == x;
    assert b == b[..k] + ([x] + b[k + 1..]);
  }

  /** The order in which grants are evaluated does not change the total:
      any two lists holding the same grants as often give the same bonus. */
  lemma {:induction false} PositiveGrantSumPermutation(a: seq<Grant>, b: seq<Grant>, investment: real, now: int)
    requires multiset(a) == multiset(b)
    ensures PositiveGrantSum(a, investment, now) == PositiveGrantSum(b, investment, now)
    decreases |a|
  {
    if a == [] {
      assert |b| == |multiset(b)| == 0;
    } else {
      var x, rest := a[|a| - 1], a[..|a| - 1];
      assert a == rest + [x];
      assert multiset(rest) == multiset(a) - multiset{x};
      var k := RemoveAtMultiset(b, x);
      var pre, post := b[..k], b[k + 1..];
      PositiveGrantSumPermutation(rest, pre + post, investment, now);
      PositiveGrantSumAppend(rest, [x], investment, now);
      PositiveGrantSumRemove(pre, x, post, investment, now);
    }
  }

  /** No eligible grant yields no bonus. */
  lemma {:induction false} NothingEligibleNoBonus(gs: seq<Grant>, investment: real, now: int)
    requires forall i :: 0 <= i < |gs| ==> !IsValidNow(gs[i], now)
    ensures PositiveGrantSum(gs, investment, now) == 0.0
  {
    if gs != [] {
      NothingEligibleNoBonus(gs[..|gs| - 1], investment, now);
    }
  }
}

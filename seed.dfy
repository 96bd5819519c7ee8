/** The `seed_investment_plans` management command
    (core/management/commands/seed_investment_plans.py): it deletes every
    plan, creates the eight sample plans with their portfolio assets, and
    then three promotion grants. The plan table is a `Catalog` object whose
    rows the command replaces. */
module Seed {
  import opened Common
  import opened Text
  import opened Plans
  import opened Grants
  import opened InvestmentViews

  // ---------------------------------------------------------------------------
  // The command's data
  // ---------------------------------------------------------------------------

  /** One entry of an `assets` list: symbol, name, type, whole percentage, price. */
  datatype AssetSeed = AssetSeed(symbol: string, name: string, assetType: string, allocation: int, price: real)

  /** One entry of `plans_data`. A key the entry leaves out is None, and
      `objects.create` then stores the column's default. */
  datatype PlanSeed = PlanSeed(
    name: string,
    category: string,
    description: string,
    riskLevel: string,
    minimumInvestment: real,
    recommendedInvestment: real,
    expectedAnnualReturn: real,
    historicalPerformance: Option<real>,
    cryptoAllocation: Option<int>,
    realEstateAllocation: Option<int>,
    stocksAllocation: Option<int>,
    bondsAllocation: Option<int>,
    cashAllocation: Option<int>,
    recommendedDurationMonths: int,
    earlyWithdrawalPenalty: Option<real>,
    isAutomatedRebalancing: Option<bool>,
    isTaxOptimized: Option<bool>,
    allowsMonthlyContribution: Option<bool>,
    managementFee: Option<real>,
    assets: seq<AssetSeed>)

  function OrElse<T>(o: Option<T>, fallback: T): (v: T)
    ensures o.Some? ==> v == o.value
    ensures o.None? ==> v == fallback
  {
    if o.Some? then o.value else fallback
  }

  const StarterAssets: seq<AssetSeed> :=
    [AssetSeed("BTC", "Bitcoin", "crypto", 15, 45000.0),
     AssetSeed("ETH", "Ethereum", "crypto", 15, 2500.0),
     AssetSeed("SPY", "S&P 500 ETF", "stock", 40, 450.0),
     AssetSeed("BND", "Total Bond Market ETF", "bond", 20, 82.5),
     AssetSeed("USDC", "USD Coin (Stablecoin)", "cash", 10, 1.0)]

  const StarterDescription: string :=
    "Perfect for beginners with limited capital. A balanced portfolio mixing "
    + "crypto (30%)" + ", " + "stocks (40%)" + ", " + "bonds (20%)" + ", and " + "cash (10%)" + "."

  /** The three plan names the grant lookups ask for. */
  const StarterName := "Starter Portfolio"
  const CouplesName := "Couples Investment Plan"
  const CryptoName := "Crypto Growth Aggressive"

  const StarterSeed := PlanSeed(StarterName, "starter", StarterDescription,
    "moderate", 100.0, 500.0, 12.5, Some(11.8), Some(30), None, Some(40), Some(20), Some(10), 12,
    None, None, None, None, Some(1.5),
    StarterAssets)

  const CouplesAssets: seq<AssetSeed> :=
    [AssetSeed("BTC", "Bitcoin", "crypto", 15, 45000.0),
     AssetSeed("LINK", "Chainlink", "crypto", 10, 28.0),
     AssetSeed("VOO", "Vanguard S&P 500 ETF", "stock", 30, 420.0),
     AssetSeed("VTI", "Vanguard Total Stock Market", "stock", 15, 240.0),
     AssetSeed("AGG", "Bloomberg Aggregate Bond ETF", "bond", 20, 105.0),
     AssetSeed("REIT", "Real Estate Investment Trust", "real_estate", 10, 75.0)]

  const CouplesSeed := PlanSeed(CouplesName, "couples",
    "Designed for couples looking to invest together. Provides steady growth with moderate risk for joint goals.",
    "moderate", 1000.0, 5000.0, 14.0, Some(13.2), Some(25), Some(10), Some(45), Some(20), None, 24,
    None, None, None, None, Some(1.2),
    CouplesAssets)

  const RetirementAssets: seq<AssetSeed> :=
    [AssetSeed("BTC", "Bitcoin", "crypto", 10, 45000.0),
     AssetSeed("QQQ", "Nasdaq 100 ETF", "stock", 20, 380.0),
     AssetSeed("VTI", "Vanguard Total Stock Market", "stock", 20, 240.0),
     AssetSeed("BND", "Total Bond Market", "bond", 35, 82.5),
     AssetSeed("TLT", "iShares 20+ Year Treasury", "bond", 5, 95.0),
     AssetSeed("USDC", "USD Coin", "cash", 10, 1.0)]

  const RetirementSeed := PlanSeed("Retirement Growth Plan", "retirement",
    "Long-term retirement planning with conservative growth. Focuses on stable assets with lower volatility.",
    "low", 5000.0, 15000.0, 9.0, Some(8.5), Some(10), None, Some(40), Some(40), Some(10), 360,
    Some(10.0), None, None, None, Some(0.8),
    RetirementAssets)

  const EducationAssets: seq<AssetSeed> :=
    [AssetSeed("BTC", "Bitcoin", "crypto", 12, 45000.0),
     AssetSeed("ETH", "Ethereum", "crypto", 8, 2500.0),
     AssetSeed("SPY", "S&P 500 ETF", "stock", 35, 450.0),
     AssetSeed("VUG", "Vanguard Growth ETF", "stock", 15, 320.0),
     AssetSeed("BND", "Bond ETF", "bond", 20, 82.5),
     AssetSeed("USDC", "Stablecoin", "cash", 10, 1.0)]

  const EducationSeed := PlanSeed("Education Fund Plan", "education",
    "Save for your child's education with a balanced growth strategy. Tax-optimized for education expenses.",
    "moderate", 500.0, 2000.0, 11.5, Some(10.8), Some(20), None, Some(50), Some(20), Some(10), 180,
    None, None, Some(true), None, Some(1.0),
    EducationAssets)

  const TravelAssets: seq<AssetSeed> :=
    [AssetSeed("BTC", "Bitcoin", "crypto", 20, 45000.0),
     AssetSeed("SOL", "Solana", "crypto", 15, 110.0),
     AssetSeed("VTI", "Total Market ETF", "stock", 25, 240.0),
     AssetSeed("VGIT", "Growth-focused ETF", "stock", 10, 85.0),
     AssetSeed("BND", "Bond ETF", "bond", 20, 82.5)]

  const TravelSeed := PlanSeed("Travel Fund Plan", "travel",
    "Accumulate funds for your dream vacation or adventure. Flexible withdrawal with moderate growth.",
    "moderate", 200.0, 1000.0, 13.0, Some(12.5), Some(35), None, Some(35), Some(20), Some(10), 24,
    None, None, None, Some(true), Some(1.3),
    TravelAssets)

  const EmergencyAssets: seq<AssetSeed> :=
    [AssetSeed("USDC", "USD Coin (Stablecoin)", "cash", 50, 1.0),
     AssetSeed("USDT", "Tether (Stablecoin)", "cash", 5, 1.0),
     AssetSeed("AGG", "Bond ETF", "bond", 30, 105.0),
     AssetSeed("SHV", "Short-term Treasury ETF", "bond", 10, 110.0),
     AssetSeed("BTC", "Bitcoin (Small allocation)", "crypto", 5, 45000.0)]

  const EmergencySeed := PlanSeed("Emergency Fund Safety Net", "emergency",
    "Build a safety net with liquid, stable assets. Low risk with high accessibility.",
    "low", 100.0, 1000.0, 5.5, None, Some(5), None, Some(15), Some(30), Some(50), 12,
    Some(0.0), None, None, None, Some(0.5),
    EmergencyAssets)

  const WealthAssets: seq<AssetSeed> :=
    [AssetSeed("BTC", "Bitcoin", "crypto", 20, 45000.0),
     AssetSeed("ETH", "Ethereum", "crypto", 15, 2500.0),
     AssetSeed("MATIC", "Polygon", "crypto", 5, 1.2),
     AssetSeed("QQQ", "Nasdaq 100", "stock", 20, 380.0),
     AssetSeed("VUG", "Growth ETF", "stock", 15, 320.0),
     AssetSeed("TLT", "Long-term Treasury", "bond", 15, 95.0),
     AssetSeed("REIT", "Real Estate Fund", "real_estate", 10, 75.0)]

  const WealthSeed := PlanSeed("Wealth Building Premium", "wealth",
    "Premium plan for high-net-worth individuals. Diversified across all asset classes with advanced strategies.",
    "high", 50000.0, 100000.0, 18.5, Some(17.8), Some(40), Some(10), Some(35), Some(15), None, 60,
    None, Some(true), Some(true), None, Some(0.9),
    WealthAssets)

  const CryptoAssets: seq<AssetSeed> :=
    [AssetSeed("BTC", "Bitcoin", "crypto", 40, 45000.0),
     AssetSeed("ETH", "Ethereum", "crypto", 25, 2500.0),
     AssetSeed("SOL", "Solana", "crypto", 10, 110.0),
     AssetSeed("AVAX", "Avalanche", "crypto", 10, 85.0),
     AssetSeed("SPY", "S&P 500 ETF", "stock", 10, 450.0),
     AssetSeed("USDC", "Stablecoin Reserve", "cash", 5, 1.0)]

  const CryptoSeed := PlanSeed(CryptoName, "crypto",
    "For adventurous investors seeking high returns. Concentrated in cryptocurrencies and blockchain assets.",
    "high", 500.0, 5000.0, 35.0, Some(32.5), Some(85), None, Some(10), Some(0), Some(5), 24,
    Some(15.0), None, None, None, Some(2.0),
    CryptoAssets)

  /** `plans_data`, in the order the command creates the plans. */
  const PlanSeeds: seq<PlanSeed> :=
    [StarterSeed, CouplesSeed, RetirementSeed, EducationSeed, TravelSeed, EmergencySeed, WealthSeed, CryptoSeed]

  // ---------------------------------------------------------------------------
  // The rows the command creates
  // ---------------------------------------------------------------------------

  /** `InvestmentPlan.objects.create(**plan_data)`: the given keys, and the
      model's defaults for the rest (no maximum, 0 penalty, rebalancing on,
      not tax optimised, monthly and lump-sum contributions allowed, 1.5% fee,
      nothing under management, no investors, active). */
  function NewPlan(id: nat, s: PlanSeed, now: int): (p: Plan)
    ensures p.id == id && p.name == s.name && p.isActive
    ensures p.cryptoAllocation == OrElse(s.cryptoAllocation, 0) && p.realEstateAllocation == OrElse(s.realEstateAllocation, 0)
    ensures p.stocksAllocation == OrElse(s.stocksAllocation, 0) && p.bondsAllocation == OrElse(s.bondsAllocation, 0)
    ensures p.cashAllocation == OrElse(s.cashAllocation, 0)
    ensures p.minimumInvestment == s.minimumInvestment && p.recommendedDurationMonths == s.recommendedDurationMonths
  {
    Plan(id, s.name, s.category, s.description, s.riskLevel, s.minimumInvestment, s.recommendedInvestment, None,
      s.expectedAnnualReturn, s.historicalPerformance,
      OrElse(s.cryptoAllocation, 0), OrElse(s.realEstateAllocation, 0), OrElse(s.stocksAllocation, 0),
      OrElse(s.bondsAllocation, 0), OrElse(s.cashAllocation, 0),
      s.recommendedDurationMonths, OrElse(s.earlyWithdrawalPenalty, 0.0),
      OrElse(s.isAutomatedRebalancing, true), OrElse(s.isTaxOptimized, false),
      OrElse(s.allowsMonthlyContribution, true), true, OrElse(s.managementFee, 1.5), 0.0, 0, true, now, now)
  }

  /** `PlanPortfolioAsset.objects.create(...)` for one entry: blank description, active. */
  function NewAsset(plan: nat, a: AssetSeed): (r: Asset)
    ensures r.plan == plan && r.symbol == a.symbol && r.allocationPercentage == a.allocation as real
  {
    Asset(plan, a.assetType, a.symbol, a.name, "", a.allocation as real, a.price, true)
  }

  /** The first k plans, the i-th under id first + i. */
  function SeededPlans(seeds: seq<PlanSeed>, first: nat, k: nat, now: int): (ps: seq<Plan>)
    requires k <= |seeds|
    ensures |ps| == k
    ensures forall i :: 0 <= i < k ==> ps[i] == NewPlan(first + i, seeds[i], now)
  {
    seq(k, i requires 0 <= i < k => NewPlan(first + i, seeds[i], now))
  }

  /** The asset rows of one plan, in list order. */
  function AssetRows(plan: nat, entries: seq<AssetSeed>): (rs: seq<Asset>)
    ensures |rs| == |entries|
    ensures forall j :: 0 <= j < |entries| ==> rs[j] == NewAsset(plan, entries[j])
  {
    seq(|entries|, j requires 0 <= j < |entries| => NewAsset(plan, entries[j]))
  }

  /** The asset rows of the first k plans. */
  function SeededAssets(seeds: seq<PlanSeed>, first: nat, k: nat): seq<Asset>
    requires k <= |seeds|
  {
    if k == 0 then [] else SeededAssets(seeds, first, k - 1) + AssetRows(first + k - 1, seeds[k - 1].assets)
  }

  /** The three grants, on the plans with the given ids; each window opens at
      `now` and closes 90, 365 and 180 days later. */
  function SeededGrants(starter: nat, couples: nat, crypto: nat, now: int): (gs: seq<Grant>)
    ensures |gs| == 3 && gs[0].plan == starter && gs[1].plan == couples && gs[2].plan == crypto
  {
    [Grant(starter, "welcome_bonus", "New Investor Welcome Bonus", "Get 5% bonus on your first investment",
       None, Some(5.0), 100.0, Some(500.0), now, now + 90 * Day, true, now),
     Grant(couples, "referral", "Couples Referral Bonus", "Earn $200 for each friend who subscribes",
       Some(200.0), None, 1000.0, None, now, now + 365 * Day, true, now),
     Grant(crypto, "milestone", "Milestone Reward - $10K", "Invest $10,000 and get $500 bonus",
       Some(500.0), None, 10000.0, None, now, now + 180 * Day, true, now)]
  }

  /** `InvestmentPlan.objects.get(name=...)`: the id of the first plan with
      that name, None for DoesNotExist. */
  function Lookup(ps: seq<Plan>, name: string): (r: Option<nat>)
    ensures r.None? <==> forall i :: 0 <= i < |ps| ==> ps[i].name != name
    ensures r.Some? ==> exists i :: 0 <= i < |ps| && ps[i].name == name && ps[i].id == r.value
  {
    if ps == [] then None
    else if ps[0].name == name then Some(ps[0].id)
    else
      var r := Lookup(ps[1..], name);
      assert forall i :: 0 < i < |ps| ==> ps[i] == ps[1..][i - 1];
      r
  }

  // ---------------------------------------------------------------------------
  // Facts about the data
  // ---------------------------------------------------------------------------

  /** No two sample plans share a name, so `get(name=...)` never finds two. */
  lemma SeedNamesDistinct()
    ensures forall i, j :: 0 <= i < j < |PlanSeeds| ==> PlanSeeds[i].name != PlanSeeds[j].name
  {
    var ns := seq(8, i requires 0 <= i < 8 => PlanSeeds[i].name);
    assert |ns[0]| == 17 && |ns[1]| == 23 && |ns[2]| == 22 && |ns[3]| == 19;
    assert |ns[4]| == 16 && |ns[5]| == 25 && |ns[6]| == 23 && |ns[7]| == 24;
    assert ns[1][0] == 'C' && ns[6][0] == 'W';
  }

  /** Every sample plan passes `validate_allocation` and the field validators. */
  lemma SeedAllocationsValid(first: nat, now: int)
    ensures forall i :: 0 <= i < |PlanSeeds| ==>
      var p := NewPlan(first + i, PlanSeeds[i], now);
      ValidateAllocation(p) && AllocationsInRange(p)
  {
  }

  /** Every sample plan's minimum is positive and at most its recommended investment. */
  lemma SeedMinimumsOrdered()
    ensures forall i :: 0 <= i < |PlanSeeds| ==>
      0.0 < PlanSeeds[i].minimumInvestment <= PlanSeeds[i].recommendedInvestment
  {
  }

  /** The percentages of the asset rows of one `asset_type`. */
  function ClassTotal(entries: seq<AssetSeed>, assetType: string): int
  {
    if entries == [] then 0
    else (if entries[0].assetType == assetType then entries[0].allocation else 0) + ClassTotal(entries[1..], assetType)
  }

  /** The asset rows add up, class by class, to the plan's own split. */
  predicate AssetsMatchSplit(entries: seq<AssetSeed>, s: PlanSeed)
  {
    && ClassTotal(entries, "crypto") == OrElse(s.cryptoAllocation, 0)
    && ClassTotal(entries, "real_estate") == OrElse(s.realEstateAllocation, 0)
    && ClassTotal(entries, "stock") == OrElse(s.stocksAllocation, 0)
    && ClassTotal(entries, "bond") == OrElse(s.bondsAllocation, 0)
    && ClassTotal(entries, "cash") == OrElse(s.cashAllocation, 0)
  }

  /** In six of the eight plans the asset rows add up, class by class, to the
      plan's own split. */
  lemma AssetsAgreeWithSplit()
    ensures AssetsMatchSplit(StarterAssets, StarterSeed) && AssetsMatchSplit(CouplesAssets, CouplesSeed)
    ensures AssetsMatchSplit(RetirementAssets, RetirementSeed) && AssetsMatchSplit(EducationAssets, EducationSeed)
    ensures AssetsMatchSplit(WealthAssets, WealthSeed) && AssetsMatchSplit(CryptoAssets, CryptoSeed)
  {
    StarterAgrees();
    CouplesAgrees();
    RetirementAgrees();
    EducationAgrees();
    WealthAgrees();
    CryptoAgrees();
  }

  lemma StarterAgrees() ensures AssetsMatchSplit(StarterAssets, StarterSeed) {}
  lemma CouplesAgrees() ensures AssetsMatchSplit(CouplesAssets, CouplesSeed) {}
  lemma RetirementAgrees() ensures AssetsMatchSplit(RetirementAssets, RetirementSeed) {}
  lemma EducationAgrees() ensures AssetsMatchSplit(EducationAssets, EducationSeed) {}
  lemma WealthAgrees() ensures AssetsMatchSplit(WealthAssets, WealthSeed) {}
  lemma CryptoAgrees() ensures AssetsMatchSplit(CryptoAssets, CryptoSeed) {}

  /** The other two do not: the Travel plan lists no cash row against its 10%
      cash, and the Emergency plan's rows put 0% in stocks, 40% in bonds and
      55% in cash against its 15/30/50. */
  lemma AssetsDisagreeWithSplit()
    ensures ClassTotal(TravelAssets, "cash") == 0 && TravelSeed.cashAllocation == Some(10)
    ensures ClassTotal(EmergencyAssets, "stock") == 0 && ClassTotal(EmergencyAssets, "bond") == 40
    ensures ClassTotal(EmergencyAssets, "cash") == 55
    ensures !AssetsMatchSplit(TravelAssets, TravelSeed) && !AssetsMatchSplit(EmergencyAssets, EmergencySeed)
  {
  }

  /** The Starter description quotes the Starter split: each class it names
      appears with the plan's own percentage for it. */
  lemma StarterDescriptionQuotesSplit()
    ensures var s := StarterSeed;
      && OccursAt(s.description, "crypto (" + NatText(OrElse(s.cryptoAllocation, 0)) + "%)", 72)
      && OccursAt(s.description, "stocks (" + NatText(OrElse(s.stocksAllocation, 0)) + "%)", 86)
      && OccursAt(s.description, "bonds (" + NatText(OrElse(s.bondsAllocation, 0)) + "%)", 100)
      && OccursAt(s.description, "cash (" + NatText(OrElse(s.cashAllocation, 0)) + "%)", 117)
  {
    assert NatText(30) == "30" && NatText(40) == "40" && NatText(20) == "20" && NatText(10) == "10";
    StarterDescriptionText();
  }

  lemma StarterDescriptionText()
    ensures OccursAt(StarterDescription, "crypto (" + "30" + "%)", 72) && OccursAt(StarterDescription, "stocks (" + "40" + "%)", 86)
    ensures OccursAt(StarterDescription, "bonds (" + "20" + "%)", 100) && OccursAt(StarterDescription, "cash (" + "10" + "%)", 117)
  {
    assert "crypto (" + "30" + "%)" == "crypto (30%)";
    assert "stocks (" + "40" + "%)" == "stocks (40%)";
    assert "bonds (" + "20" + "%)" == "bonds (20%)";
    assert "cash (" + "10" + "%)" == "cash (10%)";
  }

  /** `get` on a table whose names are distinct finds the one row with the name. */
  lemma {:induction false} LookupDistinct(ps: seq<Plan>, k: nat, name: string)
    requires k < |ps| && ps[k].name == name
    requires forall i, j :: 0 <= i < j < |ps| ==> ps[i].name != ps[j].name
    ensures Lookup(ps, name) == Some(ps[k].id)
  {
    if k > 0 {
      assert ps[0].name != name;
      LookupDistinct(ps[1..], k - 1, name);
    }
  }

  /** What the grant lookups need of a plan list: eight plans under distinct
      names, with the Starter, Couples and Crypto plans first, second and last. */
  predicate SeedsFit(seeds: seq<PlanSeed>)
  {
    && |seeds| == 8
    && (forall i, j :: 0 <= i < j < |seeds| ==> seeds[i].name != seeds[j].name)
    && seeds[0].name == StarterName && seeds[1].name == CouplesName
    && seeds[7].name == CryptoName
  }

  /** The sample plans fit. */
  lemma PlanSeedsFit()
    ensures SeedsFit(PlanSeeds)
  {
    SeedNamesDistinct();
  }

  /** The lookups the grants use: in the freshly created table each name is
      found, at the id it was created under. */
  lemma SeededLookups(seeds: seq<PlanSeed>, first: nat, now: int)
    requires SeedsFit(seeds)
    ensures var ps := SeededPlans(seeds, first, |seeds|, now);
      && Lookup(ps, StarterName) == Some(first)
      && Lookup(ps, CouplesName) == Some(first + 1)
      && Lookup(ps, CryptoName) == Some(first + 7)
  {
    var ps := SeededPlans(seeds, first, |seeds|, now);
    assert forall i :: 0 <= i < |ps| ==> ps[i].name == seeds[i].name;
    LookupDistinct(ps, 0, StarterName);
    LookupDistinct(ps, 1, CouplesName);
    LookupDistinct(ps, 7, CryptoName);
  }

  /** Each seeded grant is active, sets exactly one of a fixed amount and a
      percentage, and has a window that opens now and closes later; the
      welcome bonus is capped at 500 per user. */
  lemma SeededGrantsShape(starter: nat, couples: nat, crypto: nat, now: int)
    ensures forall g :: g in SeededGrants(starter, couples, crypto, now) ==>
      && g.isActive && g.validFrom == now < g.validUntil
      && (Truthy(g.grantAmount) <==> !Truthy(g.grantPercentage))
      && IsValidNow(g, now) && IsValidNow(g, g.validUntil) && !IsValidNow(g, g.validUntil + 1)
    ensures SeededGrants(starter, couples, crypto, now)[0].maximumGrantPerUser == Some(500.0)
  {
  }

  /** With the three plan ids distinct, only grant k is applicable to its own
      plan, provided its minimum is met. */
  lemma OnlyOwnGrant(gs: seq<Grant>, k: nat, plan: nat, amount: real, now: int)
    requires |gs| == 3 && k < 3 && gs[k].plan == plan
    requires forall i :: 0 <= i < 3 && i != k ==> gs[i].plan != plan
    requires Applicable(gs[k], plan, amount, now)
    ensures ApplicableGrants(gs, plan, amount, now) == [gs[k]]
  {
    var r2 := ApplicableGrants(gs[2..], plan, amount, now);
    var r1 := ApplicableGrants(gs[1..], plan, amount, now);
    assert gs[2..][1..] == [] && gs[1..][1..] == gs[2..];
    assert ApplicableGrants(gs[2..][1..], plan, amount, now) == [];
    assert r2 == (if k == 2 then [gs[2]] else []);
    assert r1 == (if k == 1 then [gs[1]] else r2);
  }

  /** The bonus from a single applicable grant. */
  lemma SingleGrantBonus(plan: Plan, gs: seq<Grant>, k: nat, amount: real, now: int)
    requires |gs| == 3 && k < 3 && gs[k].plan == plan.id
    requires forall i :: 0 <= i < 3 && i != k ==> gs[i].plan != plan.id
    requires Applicable(gs[k], plan.id, amount, now)
    ensures Bonus(plan, gs, amount, now) == Max0(CalculateGrantAmount(gs[k], amount, now))
  {
    OnlyOwnGrant(gs, k, plan.id, amount, now);
    var one := [gs[k]];
    assert one[..|one| - 1] == [] && one[|one| - 1] == gs[k];
    assert PositiveGrantSum(one, amount, now) == PositiveGrantSum([], amount, now) + Max0(CalculateGrantAmount(gs[k], amount, now));
  }

  function Max0(x: real): real
  {
    if x > 0.0 then x else 0.0
  }

  /** The welcome bonus on the Starter plan: 5% of the stake, at most 500;
      a $100 subscription is worth $105 once credited. */
  lemma StarterWelcomeBonus(first: nat, now: int, id: nat, user: nat)
    ensures var p := NewPlan(first, StarterSeed, now);
      var gs := SeededGrants(first, first + 1, first + 7, now);
      && Bonus(p, gs, 100.0, now) == 5.0
      && Bonus(p, gs, 20000.0, now) == 500.0
      && SubscribedRecord(id, user, p, gs, 100.0, Absent, now).currentValue == 105.0
  {
    var p := NewPlan(first, StarterSeed, now);
    var gs := SeededGrants(first, first + 1, first + 7, now);
    SingleGrantBonus(p, gs, 0, 100.0, now);
    SingleGrantBonus(p, gs, 0, 20000.0, now);
    assert CalculateGrantAmount(gs[0], 100.0, now) == 5.0;
    assert CalculateGrantAmount(gs[0], 20000.0, now) == 500.0;
  }

  /** The fixed grants: $1000 in the Couples plan collects $200, $10000 in the
      Crypto plan collects $500, and a cent less collects nothing. */
  lemma FixedGrantExamples(first: nat, now: int)
    ensures var gs := SeededGrants(first, first + 1, first + 7, now);
      && Bonus(NewPlan(first + 1, CouplesSeed, now), gs, 1000.0, now) == 200.0
      && Bonus(NewPlan(first + 7, CryptoSeed, now), gs, 10000.0, now) == 500.0
      && Bonus(NewPlan(first + 7, CryptoSeed, now), gs, 9999.99, now) == 0.0
  {
    var gs := SeededGrants(first, first + 1, first + 7, now);
    SingleGrantBonus(NewPlan(first + 1, CouplesSeed, now), gs, 1, 1000.0, now);
    SingleGrantBonus(NewPlan(first + 7, CryptoSeed, now), gs, 2, 10000.0, now);
    assert CalculateGrantAmount(gs[1], 1000.0, now) == 200.0;
    assert CalculateGrantAmount(gs[2], 10000.0, now) == 500.0;
    assert gs[2..][1..] == [] && gs[1..][1..] == gs[2..];
    assert ApplicableGrants(gs[2..], first + 7, 9999.99, now) == [];
    assert ApplicableGrants(gs[1..], first + 7, 9999.99, now) == [];
    assert ApplicableGrants(gs, first + 7, 9999.99, now) == [];
  }

  /** `PlanIds(ps)`: the ids of the plan rows. */
  function PlanIds(ps: seq<Plan>): set<nat>
  {
    set i | 0 <= i < |ps| :: ps[i].id
  }

  /** The first k plans hold exactly the ids first .. first + k - 1. */
  lemma SeededIds(seeds: seq<PlanSeed>, first: nat, k: nat, now: int)
    requires k <= |seeds|
    ensures forall n :: first <= n < first + k ==> n in PlanIds(SeededPlans(seeds, first, k, now))
  {
    var ps := SeededPlans(seeds, first, k, now);
    forall n | first <= n < first + k
      ensures n in PlanIds(ps)
    {
      assert ps[n - first].id == n;
    }
  }

  /** Every asset row of the first k plans points at one of them. */
  lemma {:induction false} SeededAssetsOwned(seeds: seq<PlanSeed>, first: nat, k: nat)
    requires k <= |seeds|
    ensures forall a :: a in SeededAssets(seeds, first, k) ==> first <= a.plan < first + k
  {
    if k > 0 {
      SeededAssetsOwned(seeds, first, k - 1);
      var rows := AssetRows(first + k - 1, seeds[k - 1].assets);
      forall a | a in rows
        ensures a.plan == first + k - 1
      {
        var j :| 0 <= j < |rows| && rows[j] == a;
      }
    }
  }

  /** The command adds 46 asset rows in all. */
  lemma SeededAssetCount(first: nat)
    ensures |SeededAssets(PlanSeeds, first, |PlanSeeds|)| == 46
  {
    assert |SeededAssets(PlanSeeds, first, 1)| == 5;
    assert |SeededAssets(PlanSeeds, first, 2)| == 11;
    assert |SeededAssets(PlanSeeds, first, 3)| == 17;
    assert |SeededAssets(PlanSeeds, first, 4)| == 23;
    assert |SeededAssets(PlanSeeds, first, 5)| == 28;
    assert |SeededAssets(PlanSeeds, first, 6)| == 33;
    assert |SeededAssets(PlanSeeds, first, 7)| == 40;
  }

  /** Plan ids are unique and below the next one handed out; every asset and
      grant belongs to a plan in the table. */
  ghost predicate TablesValid(plans: seq<Plan>, assets: seq<Asset>, grants: seq<Grant>, nextPlanId: nat)
  {
    && (forall i, j :: 0 <= i < j < |plans| ==> plans[i].id != plans[j].id)
    && (forall i :: 0 <= i < |plans| ==> plans[i].id < nextPlanId)
    && (forall a :: a in assets ==> a.plan in PlanIds(plans))
    && (forall g :: g in grants ==> g.plan in PlanIds(plans))
  }

  /** The freshly seeded plan and asset tables are valid. */
  lemma SeededTablesValid(seeds: seq<PlanSeed>, first: nat, now: int)
    ensures TablesValid(SeededPlans(seeds, first, |seeds|, now), SeededAssets(seeds, first, |seeds|), [], first + |seeds|)
  {
    SeededIds(seeds, first, |seeds|, now);
    SeededAssetsOwned(seeds, first, |seeds|);
  }

  /** A plan that `get` finds is in the table. */
  lemma LookupFound(ps: seq<Plan>, name: string, id: nat)
    requires Lookup(ps, name) == Some(id)
    ensures id in PlanIds(ps)
  {
    var i :| 0 <= i < |ps| && ps[i].name == name && ps[i].id == id;
  }

  /** Granting on plans of a valid table keeps it valid. */
  lemma GrantsOwned(plans: seq<Plan>, assets: seq<Asset>, next: nat, starter: nat, couples: nat, crypto: nat, now: int)
    requires TablesValid(plans, assets, [], next)
    requires Lookup(plans, StarterName) == Some(starter)
    requires Lookup(plans, CouplesName) == Some(couples)
    requires Lookup(plans, CryptoName) == Some(crypto)
    ensures TablesValid(plans, assets, SeededGrants(starter, couples, crypto, now), next)
  {
    LookupFound(plans, StarterName, starter);
    LookupFound(plans, CouplesName, couples);
    LookupFound(plans, CryptoName, crypto);
  }

  /** One more plan on the seeded table. */
  lemma SeededPlansSnoc(seeds: seq<PlanSeed>, first: nat, k: nat, now: int)
    requires k < |seeds|
    ensures SeededPlans(seeds, first, k + 1, now) == SeededPlans(seeds, first, k, now) + [NewPlan(first + k, seeds[k], now)]
    ensures SeededAssets(seeds, first, k + 1) == SeededAssets(seeds, first, k) + AssetRows(first + k, seeds[k].assets)
  {
  }

  // ---------------------------------------------------------------------------
  // The command
  // ---------------------------------------------------------------------------

  datatype SeedOutcome =
    | ProtectedError           // a subscription still points at a plan: nothing is deleted
    | Seeded(createdCount: nat)

  /** The plan, asset and grant tables. */
  class Catalog {
    var plans: seq<Plan>
    var assets: seq<Asset>
    var grants: seq<Grant>
    var nextPlanId: nat

    ghost predicate Valid()
      reads this
    {
      TablesValid(plans, assets, grants, nextPlanId)
    }

    /** The tables are exactly what seeding `seeds` under ids from `first` creates. */
    ghost predicate IsSeeded(seeds: seq<PlanSeed>, first: nat, now: int)
      reads this
    {
      && plans == SeededPlans(seeds, first, |seeds|, now)
      && assets == SeededAssets(seeds, first, |seeds|)
      && grants == SeededGrants(first, first + 1, first + 7, now)
      && nextPlanId == first + |seeds|
    }

    constructor ()
      ensures Valid() && plans == [] && assets == [] && grants == [] && nextPlanId == 1
    {
      plans, assets, grants, nextPlanId := [], [], [], 1;
    }

    /** `handle`. `referenced` holds the plan ids that subscriptions point at;
        the subscription foreign key is PROTECT, so if any plan is referenced
        the delete raises before removing anything. Otherwise every plan goes,
        and with it (CASCADE) every asset and grant; then the eight plans are
        created under fresh ids with their assets, and the three grants are
        attached to the plans that `get` finds by name. */
    method Handle(referenced: set<nat>, now: int) returns (outcome: SeedOutcome)
      requires Valid()
      modifies this
      ensures Valid()
      ensures (exists i :: 0 <= i < |old(plans)| && old(plans)[i].id in referenced) ==>
        outcome == ProtectedError && plans == old(plans) && assets == old(assets) && grants == old(grants)
        && nextPlanId == old(nextPlanId)
      ensures (forall i :: 0 <= i < |old(plans)| ==> old(plans)[i].id !in referenced) ==>
        outcome == Seeded(|PlanSeeds|) && IsSeeded(PlanSeeds, old(nextPlanId), now)
    {
      if exists i :: 0 <= i < |plans| && plans[i].id in referenced {
        return ProtectedError;
      }
      PlanSeedsFit();
      var count := Reseed(PlanSeeds, now);
      return Seeded(count);
    }

    /** Past the PROTECT check: delete, then create. */
    method Reseed(seeds: seq<PlanSeed>, now: int) returns (createdCount: nat)
      requires SeedsFit(seeds)
      modifies this
      ensures Valid()
      ensures createdCount == |seeds| && IsSeeded(seeds, old(nextPlanId), now)
    {
      plans, assets, grants := [], [], [];
      var first := nextPlanId;
      createdCount := CreatePlans(seeds, now);
      AttachGrants(seeds, first, now);
    }

    /** The outer loop over `plans_data`, on empty tables. */
    method CreatePlans(seeds: seq<PlanSeed>, now: int) returns (createdCount: nat)
      requires plans == [] && assets == []
      modifies this`plans, this`assets, this`nextPlanId
      ensures createdCount == |seeds|
      ensures plans == SeededPlans(seeds, old(nextPlanId), |seeds|, now)
      ensures assets == SeededAssets(seeds, old(nextPlanId), |seeds|)
      ensures nextPlanId == old(nextPlanId) + |seeds|
    {
      var first := nextPlanId;
      createdCount := 0;
      var i := 0;
      while i < |seeds|
        invariant 0 <= i <= |seeds| && createdCount == i
        invariant nextPlanId == first + i
        invariant plans == SeededPlans(seeds, first, i, now)
        invariant assets == SeededAssets(seeds, first, i)
      {
        SeededPlansSnoc(seeds, first, i, now);
        CreatePlan(seeds[i], now);
        createdCount := createdCount + 1;
        i := i + 1;
      }
    }

    /** One pass of the outer loop: the plan under the next id, then its assets. */
    method CreatePlan(s: PlanSeed, now: int)
      modifies this`plans, this`assets, this`nextPlanId
      ensures plans == old(plans) + [NewPlan(old(nextPlanId), s, now)]
      ensures assets == old(assets) + AssetRows(old(nextPlanId), s.assets)
      ensures nextPlanId == old(nextPlanId) + 1
    {
      var id := nextPlanId;
      plans := plans + [NewPlan(id, s, now)];
      nextPlanId := nextPlanId + 1;
      CreateAssets(id, s.assets);
    }

    /** The inner loop: one asset row per entry, appended in order. */
    method CreateAssets(plan: nat, entries: seq<AssetSeed>)
      modifies this`assets
      ensures assets == old(assets) + AssetRows(plan, entries)
    {
      var j := 0;
      while j < |entries|
        invariant 0 <= j <= |entries|
        invariant assets == old(assets) + AssetRows(plan, entries[..j])
      {
        assets := assets + [NewAsset(plan, entries[j])];
        j := j + 1;
        assert AssetRows(plan, entries[..j]) == AssetRows(plan, entries[..j - 1]) + [NewAsset(plan, entries[j - 1])];
      }
      assert entries[..j] == entries;
    }

    /** The grant loop, after the three `get` lookups: on the freshly created
        tables each name is found, and the three grants go to the plans found. */
    method AttachGrants(ghost seeds: seq<PlanSeed>, first: nat, now: int)
      requires SeedsFit(seeds) && nextPlanId == first + |seeds|
      requires plans == SeededPlans(seeds, first, |seeds|, now) && assets == SeededAssets(seeds, first, |seeds|)
      modifies this`grants
      ensures IsSeeded(seeds, first, now) && Valid()
    {
      SeededLookups(seeds, first, now);
      SeededTablesValid(seeds, first, now);
      var starter := Lookup(plans, StarterName).value;
      var couples := Lookup(plans, CouplesName).value;
      var crypto := Lookup(plans, CryptoName).value;
      grants := SeededGrants(starter, couples, crypto, now);
      GrantsOwned(plans, assets, nextPlanId, starter, couples, crypto, now);
    }
  }
}

/** InvestmentPlan and PlanPortfolioAsset rows (core/models.py). */
module Plans {
  import opened Common

  /** One investment plan. Decimal columns are `real`; the five class
      allocations are whole percentages. */
  datatype Plan = Plan(
    id: nat,
    name: string,
    category: string,
    description: string,
    riskLevel: string,
    minimumInvestment: real,
    recommendedInvestment: real,
    maximumInvestment: Option<real>,
    expectedAnnualReturn: real,
    historicalPerformance: Option<real>,
    cryptoAllocation: int,
    realEstateAllocation: int,
    stocksAllocation: int,
    bondsAllocation: int,
    cashAllocation: int,
    recommendedDurationMonths: int,
    earlyWithdrawalPenalty: real,
    isAutomatedRebalancing: bool,
    isTaxOptimized: bool,
    allowsMonthlyContribution: bool,
    allowsLumpSum: bool,
    managementFee: real,
    currentAum: real,
    numberOfInvestors: int,
    isActive: bool,
    createdAt: int,
    updatedAt: int)

  /** One holding of a plan's portfolio. */
  datatype Asset = Asset(
    plan: nat,
    assetType: string,
    symbol: string,
    name: string,
    description: string,
    allocationPercentage: real,
    currentPrice: real,
    isActive: bool)

  const AllocationKeys: set<string> := {"crypto", "real_estate", "stocks", "bonds", "cash"}

  /** `get_asset_allocation`: the five class percentages under their keys. */
  function AssetAllocation(p: Plan): (m: map<string, int>)
    ensures m.Keys == AllocationKeys
    ensures m["crypto"] == p.cryptoAllocation && m["real_estate"] == p.realEstateAllocation
    ensures m["stocks"] == p.stocksAllocation && m["bonds"] == p.bondsAllocation
    ensures m["cash"] == p.cashAllocation
  {
    map["crypto" := p.cryptoAllocation, "real_estate" := p.realEstateAllocation,
        "stocks" := p.stocksAllocation, "bonds" := p.bondsAllocation, "cash" := p.cashAllocation]
  }

  /** The total of an allocation map over the five keys. */
  function AllocationMapTotal(m: map<string, int>): int
    requires AllocationKeys <= m.Keys
  {
    m["crypto"] + m["real_estate"] + m["stocks"] + m["bonds"] + m["cash"]
  }

  /** `validate_allocation`. */
  predicate ValidateAllocation(p: Plan)
  {
    p.cryptoAllocation + p.realEstateAllocation + p.stocksAllocation + p.bondsAllocation + p.cashAllocation == 100
  }

  /** The field validators: every allocation lies in 0..100. */
  predicate AllocationsInRange(p: Plan)
  {
    && 0 <= p.cryptoAllocation <= 100 && 0 <= p.realEstateAllocation <= 100
    && 0 <= p.stocksAllocation <= 100 && 0 <= p.bondsAllocation <= 100
    && 0 <= p.cashAllocation <= 100
  }

  /** `get_asset_allocation` and `validate_allocation` agree: a plan
      validates exactly when the values of its allocation map total 100. */
  lemma AllocationMapAgrees(p: Plan)
    ensures ValidateAllocation(p) <==> AllocationMapTotal(AssetAllocation(p)) == 100
  {
  }

  /** A validated plan within the field ranges holds at least one class. */
  lemma ValidatedPlanHoldsSomething(p: Plan)
    requires AllocationsInRange(p) && ValidateAllocation(p)
    ensures p.cryptoAllocation > 0 || p.realEstateAllocation > 0 || p.stocksAllocation > 0
         || p.bondsAllocation > 0 || p.cashAllocation > 0
  {
  }

  /** Every numeric column InvestmentPlan declares: the Decimal columns and
      the integer columns. */
  const NumericColumns: set<string> := {
    "minimum_investment", "recommended_investment", "maximum_investment",
    "expected_annual_return", "historical_performance",
    "crypto_allocation", "real_estate_allocation", "stocks_allocation",
    "bonds_allocation", "cash_allocation",
    "recommended_duration_months", "early_withdrawal_penalty",
    "management_fee", "current_aum", "number_of_investors"}

  /** The two nullable numeric columns. */
  const NullableColumns: set<string> := {"maximum_investment", "historical_performance"}

  /** Reading a numeric attribute by name, as `plan.<name>` does. None stands
      for the AttributeError raised when the plan has no such column;
      Some(None) is a NULL in one of the two nullable columns. */
  function PlanAttribute(p: Plan, attribute: string): (v: Option<Option<real>>)
    ensures v.Some? <==> attribute in NumericColumns
    ensures v == Some(None) <==>
      || (attribute == "maximum_investment" && p.maximumInvestment.None?)
      || (attribute == "historical_performance" && p.historicalPerformance.None?)
    ensures attribute in NumericColumns - NullableColumns ==> v.value.Some?
    ensures attribute == "minimum_investment" ==> v == Some(Some(p.minimumInvestment))
    ensures attribute == "recommended_duration_months" ==> v == Some(Some(p.recommendedDurationMonths as real))
  {
    match attribute
    case "minimum_investment" => Some(Some(p.minimumInvestment))
    case "recommended_investment" => Some(Some(p.recommendedInvestment))
    case "maximum_investment" => Some(p.maximumInvestment)
    case "expected_annual_return" => Some(Some(p.expectedAnnualReturn))
    case "historical_performance" => Some(p.historicalPerformance)
    case "crypto_allocation" => Some(Some(p.cryptoAllocation as real))
    case "real_estate_allocation" => Some(Some(p.realEstateAllocation as real))
    case "stocks_allocation" => Some(Some(p.stocksAllocation as real))
    case "bonds_allocation" => Some(Some(p.bondsAllocation as real))
    case "cash_allocation" => Some(Some(p.cashAllocation as real))
    case "recommended_duration_months" => Some(Some(p.recommendedDurationMonths as real))
    case "early_withdrawal_penalty" => Some(Some(p.earlyWithdrawalPenalty))
    case "management_fee" => Some(Some(p.managementFee))
    case "current_aum" => Some(Some(p.currentAum))
    case "number_of_investors" => Some(Some(p.numberOfInvestors as real))
    case _ => None
  }
}

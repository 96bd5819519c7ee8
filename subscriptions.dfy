/** UserInvestmentSubscription (core/models.py): the row a user holds in a
    plan, its ROI and the days it has left. */
module Subscriptions {
  import opened Common

  datatype Status = Active | Paused | Completed | Cancelled

  /** The value stored in the `status` column. */
  function StatusCode(s: Status): (code: string)
    ensures |code| > 0
  {
    match s
    case Active => "active"
    case Paused => "paused"
    case Completed => "completed"
    case Cancelled => "cancelled"
  }

  lemma StatusCodeInjective(a: Status, b: Status)
    ensures StatusCode(a) == StatusCode(b) ==> a == b
  {
  }

  /** The statuses the views treat as a current holding (`status__in=['active', 'paused']`). */
  predicate IsLive(s: Status)
  {
    s.Active? || s.Paused?
  }

  /** One subscription row as a value: what the dashboard and the lemmas read. */
  datatype SubscriptionRecord = SubscriptionRecord(
    id: nat,
    owner: nat,
    plan: nat,
    initialInvestment: real,
    currentValue: real,
    totalContributed: real,
    totalReturns: real,
    status: Status,
    startDate: int,
    plannedEndDate: int,
    actualEndDate: Option<int>,
    monthlyContribution: Option<real>,
    nextContributionDate: Option<int>,
    roiPercentage: real,
    lastRebalanceDate: Option<int>,
    notes: string)

  /** The return on an investment, as a percentage of what was put in; 0 when
      nothing positive was put in. Shared by `calculate_roi` and the
      dashboard's overall ROI. */
  function Roi(initial: real, current: real): (roi: real)
    ensures initial <= 0.0 ==> roi == 0.0
    ensures initial > 0.0 ==> roi * initial == (current - initial) * 100.0
  {
    if initial > 0.0 then (current - initial) / initial * 100.0 else 0.0
  }

  /** 1000 grown to 1100 is a 10% return. */
  lemma RoiExample()
    ensures Roi(1000.0, 1100.0) == 10.0
  {
  }

  /** With a positive stake, the ROI is non-negative exactly when the value has
      not fallen below the stake, and zero exactly when it is unchanged. */
  lemma RoiSign(initial: real, current: real)
    requires initial > 0.0
    ensures Roi(initial, current) >= 0.0 <==> current >= initial
    ensures Roi(initial, current) == 0.0 <==> current == initial
  {
    SignOfProduct(Roi(initial, current), initial);
  }

  /** With y positive, x * y has the sign of x. */
  lemma SignOfProduct(x: real, y: real)
    requires y > 0.0
    ensures x * y >= 0.0 <==> x >= 0.0
    ensures x * y == 0.0 <==> x == 0.0
  {
    if x < 0.0 {
      assert x * y < 0.0;
    } else if x > 0.0 {
      assert x * y > 0.0;
    }
  }

  /** Increasing the value against a fixed positive stake increases the ROI. */
  lemma RoiMonotone(initial: real, v1: real, v2: real)
    requires initial > 0.0 && v1 <= v2
    ensures Roi(initial, v1) <= Roi(initial, v2)
  {
    var r1, r2 := Roi(initial, v1), Roi(initial, v2);
    assert (r2 - r1) * initial == (v2 - v1) * 100.0;
    SignOfProduct(r2 - r1, initial);
  }

  /** A subscription row held by the ORM and updated in place. */
  class Subscription {
    const id: nat
    const owner: nat
    const plan: nat
    var initialInvestment: real
    var currentValue: real
    var totalContributed: real
    var totalReturns: real
    var status: Status
    var startDate: int
    var plannedEndDate: int
    var actualEndDate: Option<int>
    var monthlyContribution: Option<real>
    var nextContributionDate: Option<int>
    var roiPercentage: real
    var lastRebalanceDate: Option<int>
    var notes: string

    /** The row's current field values. */
    function Record(): (r: SubscriptionRecord)
      reads this
      ensures r.id == id && r.owner == owner && r.plan == plan
    {
      SubscriptionRecord(id, owner, plan, initialInvestment, currentValue, totalContributed, totalReturns,
        status, startDate, plannedEndDate, actualEndDate, monthlyContribution, nextContributionDate,
        roiPercentage, lastRebalanceDate, notes)
    }

    /** `objects.create(...)` with the three amounts and the end date given:
        every other column takes its default, and the start date is `now`. */
    constructor (id: nat, owner: nat, plan: nat, initial: real, plannedEnd: int, now: int)
      ensures Record() == SubscriptionRecord(id, owner, plan, initial, initial, initial, 0.0, Active, now,
        plannedEnd, None, None, None, 0.0, None, "")
    {
      this.id := id;
      this.owner := owner;
      this.plan := plan;
      initialInvestment := initial;
      currentValue := initial;
      totalContributed := initial;
      totalReturns := 0.0;
      status := Active;
      startDate := now;
      plannedEndDate := plannedEnd;
      actualEndDate := None;
      monthlyContribution := None;
      nextContributionDate := None;
      roiPercentage := 0.0;
      lastRebalanceDate := None;
      notes := "";
    }

    /** `calculate_roi`: returns the ROI and, only when the stake is positive,
        stores it in `roi_percentage`. */
    method CalculateRoi() returns (roi: real)
      modifies this`roiPercentage
      ensures roi == Roi(initialInvestment, currentValue)
      ensures initialInvestment > 0.0 ==> roiPercentage == roi
      ensures initialInvestment <= 0.0 ==> roi == 0.0 && roiPercentage == old(roiPercentage)
    {
      if initialInvestment > 0.0 {
        roi := (currentValue - initialInvestment) / initialInvestment * 100.0;
        roiPercentage := roi;
      } else {
        roi := 0.0;
      }
    }

    /** `get_duration_remaining` at time `now`: whole days (rounded down) until
        the planned end while active, never below 0; 0 for any other status. */
    function DurationRemaining(now: int): (d: int)
      reads this
      ensures d >= 0
      ensures !status.Active? ==> d == 0
      ensures status.Active? && now <= plannedEndDate ==> d * Day <= plannedEndDate - now < (d + 1) * Day
      ensures now > plannedEndDate ==> d == 0
    {
      if status.Active? then Max(0, (plannedEndDate - now) / Day) else 0
    }

    /** Setting `monthly_contribution`, with the next contribution 30 days on. */
    method SetMonthlyContribution(amount: real, now: int)
      modifies this`monthlyContribution, this`nextContributionDate
      ensures Record() == old(Record()).(monthlyContribution := Some(amount), nextContributionDate := Some(now + 30 * Day))
    {
      monthlyContribution := Some(amount);
      nextContributionDate := Some(now + 30 * Day);
    }

    /** Money paid in (a grant or a contribution) raises both the value and the
        amount contributed by the same amount. */
    method Credit(amount: real)
      modifies this`currentValue, this`totalContributed
      ensures Record() == old(Record()).(currentValue := old(currentValue) + amount,
                                         totalContributed := old(totalContributed) + amount)
      ensures currentValue - totalContributed == old(currentValue - totalContributed)
    {
      currentValue := currentValue + amount;
      totalContributed := totalContributed + amount;
    }

    /** Assigning `status`. */
    method SetStatus(s: Status)
      modifies this`status
      ensures Record() == old(Record()).(status := s)
    {
      status := s;
    }
  }

  /** Time only runs the clock down: a later reading never shows more days. */
  lemma RemainingShrinks(s: Subscription, t1: int, t2: int)
    requires t1 <= t2
    ensures s.DurationRemaining(t2) <= s.DurationRemaining(t1)
  {
    if s.status.Active? {
      var a, b := s.plannedEndDate - t2, s.plannedEndDate - t1;
      assert a <= b;
      FloorDivMonotone(a, b);
    }
  }

  lemma FloorDivMonotone(a: int, b: int)
    requires a <= b
    ensures a / Day <= b / Day
  {
  }

  /** One day after the planned end of an active subscription nothing is left,
      and a full day before it at least one day is. */
  lemma RemainingAroundEnd(s: Subscription)
    requires s.status.Active?
    ensures s.DurationRemaining(s.plannedEndDate) == 0
    ensures s.DurationRemaining(s.plannedEndDate - Day) == 1
  {
  }
}

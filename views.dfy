/** The state-changing logic of the investment views (core/views.py):
    subscribing to a plan, adding a contribution, pausing and resuming, and
    the dashboard's totals. The subscription table is a `Ledger` of
    `Subscription` objects; a request's outcome is a `Response`. */
module InvestmentViews {
  import opened Common
  import opened Plans
  import opened Grants
  import opened Subscriptions

  /** Where a redirect goes. */
  datatype Target = PlanDetail(planId: nat) | InvestmentDashboard | SubscriptionDetail(subscriptionId: nat)

  /** The error messages the forms show. */
  datatype FormError =
    | InvalidInvestmentAmount
    | BelowMinimum(minimum: real)
    | InvalidContributionAmount
    | ContributionNotPositive

  /** The exceptions that escape a view and end in a server error. */
  datatype Failure = AttributeError(attribute: string) | TypeError | InvalidOperation | IntegrityError

  datatype Page = SubscribePage | ContributionPage | PausePage | ResumePage

  datatype Response =
    | NotFound
    | Form(page: Page)
    | FormWithError(page: Page, error: FormError)
    | Redirect(target: Target)
    | ServerError(failure: Failure)

  /** The records of a sequence of rows, in order. */
  function RecordsOf(rs: seq<Subscription>): (r: seq<SubscriptionRecord>)
    reads rs
    ensures |r| == |rs|
    ensures forall i :: 0 <= i < |rs| ==> r[i] == rs[i].Record()
  {
    if rs == [] then [] else RecordsOf(rs[..|rs| - 1]) + [rs[|rs| - 1].Record()]
  }

  /** The corrected duplicate gate: any row at all for (user, plan). */
  predicate HasRowFor(rs: seq<SubscriptionRecord>, owner: nat, plan: nat)
  {
    exists i :: 0 <= i < |rs| && rs[i].owner == owner && rs[i].plan == plan
  }

  /** The duplicate gate as written: only an active or paused row counts. */
  predicate HasLiveRowFor(rs: seq<SubscriptionRecord>, owner: nat, plan: nat)
  {
    exists i :: 0 <= i < |rs| && rs[i].owner == owner && rs[i].plan == plan && IsLive(rs[i].status)
  }

  /** `unique_together = ('user_profile', 'plan')`. */
  predicate UniquePairs(rs: seq<SubscriptionRecord>)
  {
    forall i, j :: 0 <= i < j < |rs| ==> rs[i].owner != rs[j].owner || rs[i].plan != rs[j].plan
  }

  predicate DistinctIds(rs: seq<SubscriptionRecord>)
  {
    forall i, j :: 0 <= i < j < |rs| ==> rs[i].id != rs[j].id
  }

  predicate IdsBelow(rs: seq<SubscriptionRecord>, bound: nat)
  {
    forall i :: 0 <= i < |rs| ==> rs[i].id < bound
  }

  /** The row `get_object_or_404(..., id=id, user_profile=caller, status=status)` looks up. */
  predicate Matches(r: SubscriptionRecord, id: nat, caller: nat, status: Status)
  {
    r.id == id && r.owner == caller && r.status == status
  }

  function FindOwned(rs: seq<SubscriptionRecord>, id: nat, caller: nat, status: Status): (k: Option<nat>)
    ensures k.Some? ==> k.value < |rs| && Matches(rs[k.value], id, caller, status)
    ensures k.None? ==> forall i :: 0 <= i < |rs| ==> !Matches(rs[i], id, caller, status)
  {
    if rs == [] then None
    else
      var k := FindOwned(rs[..|rs| - 1], id, caller, status);
      if k.Some? then k
      else if Matches(rs[|rs| - 1], id, caller, status) then Some(|rs| - 1)
      else None
  }

  /** Ids are keys: the lookup finds the one row that matches. */
  lemma FindOwnedUnique(rs: seq<SubscriptionRecord>, k: nat, id: nat, caller: nat, status: Status)
    requires DistinctIds(rs) && k < |rs| && Matches(rs[k], id, caller, status)
    ensures FindOwned(rs, id, caller, status) == Some(k)
  {
  }

  /** The end date of a new subscription: the plan's duration in 30-day months. */
  function PlannedEnd(plan: Plan, now: int): int
  {
    now + plan.recommendedDurationMonths * 30 * Day
  }

  /** The row `objects.create(...)` inserts for an initial investment `amount`. */
  function CreatedRecord(id: nat, user: nat, plan: Plan, amount: real, now: int): SubscriptionRecord
  {
    SubscriptionRecord(id, user, plan.id, amount, amount, amount, 0.0, Active, now, PlannedEnd(plan, now),
      None, None, None, 0.0, None, "")
  }

  /** The bonus the view collects for an investment in a plan. */
  function Bonus(plan: Plan, grants: seq<Grant>, amount: real, now: int): real
  {
    PositiveGrantSum(ApplicableGrants(grants, plan.id, amount, now), amount, now)
  }

  /** The row a subscribe request leaves behind once it has passed the
      gates: created, given its monthly contribution, credited the bonus.
      A monthly field `Decimal` refuses raises after the insert, so that row
      stays as it was created. */
  function SubscribedRecord(id: nat, user: nat, plan: Plan, grants: seq<Grant>, amount: real, monthly: FormValue, now: int): SubscriptionRecord
  {
    var created := CreatedRecord(id, user, plan, amount, now);
    if monthly.Malformed? then created
    else
      var withMonthly :=
        if monthly.Given? then created.(monthlyContribution := Some(monthly.value), nextContributionDate := Some(now + 30 * Day))
        else created;
      var bonus := Bonus(plan, grants, amount, now);
      if bonus > 0.0 then withMonthly.(currentValue := amount + bonus, totalContributed := amount + bonus) else withMonthly
  }

  /** What a successful subscription holds: the stake as entered, the value and
      the contributed total both at stake + bonus, an active status, an end
      date duration * 30 days away, and a next contribution date 30 days
      away exactly when a monthly amount was given. */
  lemma SubscribedRecordFacts(id: nat, user: nat, plan: Plan, grants: seq<Grant>, amount: real, monthly: FormValue, now: int)
    requires !monthly.Malformed?
    ensures var r := SubscribedRecord(id, user, plan, grants, amount, monthly, now);
      var g := Bonus(plan, grants, amount, now);
      && r.id == id && r.owner == user && r.plan == plan.id
      && r.initialInvestment == amount
      && r.currentValue == amount + g && r.totalContributed == amount + g
      && r.status == Active && r.startDate == now
      && r.plannedEndDate == now + plan.recommendedDurationMonths * 30 * Day
      && (r.monthlyContribution.Some? <==> monthly.Given?)
      && (monthly.Given? ==> r.monthlyContribution == Some(monthly.value) && r.nextContributionDate == Some(now + 30 * Day))
      && (!monthly.Given? ==> r.nextContributionDate == None)
      && r.roiPercentage == 0.0 && r.totalReturns == 0.0
  {
  }

  /** The grant loop: the sum of each grant's positive amount. */
  method TotalGrant(gs: seq<Grant>, amount: real, now: int) returns (total: real)
    ensures total == PositiveGrantSum(gs, amount, now)
    ensures total >= 0.0
  {
    total := 0.0;
    var i := 0;
    while i < |gs|
      invariant 0 <= i <= |gs|
      invariant total == PositiveGrantSum(gs[..i], amount, now)
    {
      assert gs[..i + 1][..i] == gs[..i];
      var g := CalculateGrantAmount(gs[i], amount, now);
      if g > 0.0 {
        total := total + g;
      }
      i := i + 1;
    }
    assert gs[..|gs|] == gs;
  }

  /** The new row of a subscribe request, built as the view builds it:
      `objects.create`, then the monthly amount when the field is filled in,
      then the positive grant amounts credited. A monthly amount `Decimal`
      refuses stops the view after the insert. */
  method NewSubscription(id: nat, plan: Plan, grants: seq<Grant>, user: nat, amount: real, monthly: FormValue, now: int)
    returns (s: Subscription, resp: Response)
    ensures fresh(s) && s.id == id && s.owner == user && s.plan == plan.id
    ensures resp == if monthly.Malformed? then ServerError(InvalidOperation) else Redirect(InvestmentDashboard)
    ensures s.Record() == SubscribedRecord(id, user, plan, grants, amount, monthly, now)
  {
    s := new Subscription(id, user, plan.id, amount, PlannedEnd(plan, now), now);
    ghost var r := CreatedRecord(id, user, plan, amount, now);
    resp := Redirect(InvestmentDashboard);
    var parsed := ParseDecimal(monthly);
    if FieldPresent(monthly) && !parsed.Number? {
      // `Decimal(monthly_contribution)` raises after the insert.
      resp := ServerError(InvalidOperation);
    } else {
      if FieldPresent(monthly) {
        s.SetMonthlyContribution(parsed.value, now);
        r := r.(monthlyContribution := Some(monthly.value), nextContributionDate := Some(now + 30 * Day));
      }
      var total := TotalGrant(ApplicableGrants(grants, plan.id, amount, now), amount, now);
      if total > 0.0 {
        s.Credit(total);
        r := r.(currentValue := amount + total, totalContributed := amount + total);
      }
    }
    assert s.Record() == r;
  }

  /** A subscription record after a contribution of `amount`. */
  function Contributed(r: SubscriptionRecord, amount: real): SubscriptionRecord
  {
    r.(currentValue := r.currentValue + amount, totalContributed := r.totalContributed + amount)
  }

  /** A contribution moves value and contributed total together, so the gain
      they imply is untouched; it changes no other field. */
  lemma ContributionKeepsGain(r: SubscriptionRecord, amount: real)
    ensures Contributed(r, amount).currentValue - Contributed(r, amount).totalContributed == r.currentValue - r.totalContributed
    ensures Contributed(r, amount).(currentValue := r.currentValue, totalContributed := r.totalContributed) == r
  {
  }

  /** The subscription table. */
  class Ledger {
    var rows: seq<Subscription>
    var nextId: nat

    function Records(): (r: seq<SubscriptionRecord>)
      reads this, rows
      ensures |r| == |rows|
    {
      RecordsOf(rows)
    }

    /** Ids are distinct and below the next one handed out; no two rows share
        a (user, plan) pair. */
    ghost predicate Valid()
      reads this, rows
    {
      DistinctIds(Records()) && IdsBelow(Records(), nextId) && UniquePairs(Records())
    }

    constructor ()
      ensures Valid() && Records() == [] && nextId == 1
    {
      rows := [];
      nextId := 1;
    }

    /** Whether a POST to subscribe reaches the amount check: the plan is
        open and the user holds no row for it. */
    predicate Admits(plan: Plan, user: nat)
      reads this, rows
    {
      plan.isActive && !HasRowFor(Records(), user, plan.id)
    }

    /** `subscribe_to_plan_view`, with the two corrections described in
        README: the minimum and the duration are read from the plan's real
        fields, and a row of any status counts as a duplicate. */
    method Subscribe(plan: Plan, grants: seq<Grant>, user: nat, isPost: bool, initial: FormValue, monthly: FormValue, now: int)
      returns (resp: Response)
      requires Valid()
      modifies this
      ensures Valid()
      ensures !plan.isActive ==> resp == NotFound && Records() == old(Records()) && nextId == old(nextId)
      ensures plan.isActive && HasRowFor(old(Records()), user, plan.id) ==>
                resp == Redirect(PlanDetail(plan.id)) && Records() == old(Records()) && nextId == old(nextId)
      ensures old(Admits(plan, user)) && !isPost ==> resp == Form(SubscribePage) && Records() == old(Records()) && nextId == old(nextId)
      ensures old(Admits(plan, user)) && isPost && initial.Absent? ==>
                resp == FormWithError(SubscribePage, InvalidInvestmentAmount) && Records() == old(Records()) && nextId == old(nextId)
      ensures old(Admits(plan, user)) && isPost && (initial.Blank? || initial.Malformed?) ==>
                resp == ServerError(InvalidOperation) && Records() == old(Records()) && nextId == old(nextId)
      ensures old(Admits(plan, user)) && isPost && initial.Given? && initial.value < plan.minimumInvestment ==>
                resp == FormWithError(SubscribePage, BelowMinimum(plan.minimumInvestment)) && Records() == old(Records()) && nextId == old(nextId)
      ensures old(Admits(plan, user)) && isPost && initial.Given? && initial.value >= plan.minimumInvestment ==>
                && resp == (if monthly.Malformed? then ServerError(InvalidOperation) else Redirect(InvestmentDashboard))
                && Records() == old(Records()) + [SubscribedRecord(old(nextId), user, plan, grants, initial.value, monthly, now)]
                && nextId == old(nextId) + 1
    {
      if !plan.isActive {
        return NotFound;
      }
      if HasRowFor(Records(), user, plan.id) {
        return Redirect(PlanDetail(plan.id));
      }
      if !isPost {
        return Form(SubscribePage);
      }
      match ParseDecimal(initial)
      case RaisedTypeError =>
        return FormWithError(SubscribePage, InvalidInvestmentAmount);
      case RaisedInvalidOperation =>
        return ServerError(InvalidOperation);
      case Number(amount) =>
        if amount < plan.minimumInvestment {
          return FormWithError(SubscribePage, BelowMinimum(plan.minimumInvestment));
        }
        resp := Insert(plan, grants, user, amount, monthly, now);
    }

    /** Lines 130-165 of the view, once the gates are passed: the insert, the
        optional monthly amount, and the grants credited to the new row. */
    method Insert(plan: Plan, grants: seq<Grant>, user: nat, amount: real, monthly: FormValue, now: int) returns (resp: Response)
      requires Valid() && !HasRowFor(Records(), user, plan.id)
      modifies this
      ensures Valid() && nextId == old(nextId) + 1
      ensures resp == if monthly.Malformed? then ServerError(InvalidOperation) else Redirect(InvestmentDashboard)
      ensures Records() == old(Records()) + [SubscribedRecord(old(nextId), user, plan, grants, amount, monthly, now)]
    {
      ghost var before := Records();
      var s;
      s, resp := NewSubscription(nextId, plan, grants, user, amount, monthly, now);
      ghost var r := s.Record();
      assert r.owner == user && r.plan == plan.id && r.id == nextId;
      InsertKeepsValid(before, r, nextId + 1);
      ghost var oldRows := rows;
      rows := rows + [s];
      nextId := nextId + 1;
      assert rows[..|rows| - 1] == oldRows;
      assert RecordsOf(oldRows) == before;
      assert Records() == before + [r];
    }

    /** `add_contribution_view`: only the caller's active row; a positive
        amount raises its value and contributed total by that amount. */
    method AddContribution(id: nat, caller: nat, isPost: bool, input: FormValue) returns (resp: Response)
      requires Valid()
      modifies rows
      ensures Valid() && rows == old(rows) && nextId == old(nextId)
      ensures var k := FindOwned(old(Records()), id, caller, Active);
        && (k.None? ==> resp == NotFound && Records() == old(Records()))
        && (k.Some? && !isPost ==> resp == Form(ContributionPage) && Records() == old(Records()))
        && (k.Some? && isPost && input.Absent? ==>
              resp == FormWithError(ContributionPage, InvalidContributionAmount) && Records() == old(Records()))
        && (k.Some? && isPost && (input.Blank? || input.Malformed?) ==>
              resp == ServerError(InvalidOperation) && Records() == old(Records()))
        && (k.Some? && isPost && input.Given? && input.value <= 0.0 ==>
              resp == FormWithError(ContributionPage, ContributionNotPositive) && Records() == old(Records()))
        && (k.Some? && isPost && input.Given? && input.value > 0.0 ==>
              && resp == Redirect(SubscriptionDetail(id))
              && Records() == old(Records())[k.value := Contributed(old(Records())[k.value], input.value)])
    {
      var k := FindOwned(Records(), id, caller, Active);
      if k.None? {
        return NotFound;
      }
      if !isPost {
        return Form(ContributionPage);
      }
      match ParseDecimal(input)
      case RaisedTypeError =>
        return FormWithError(ContributionPage, InvalidContributionAmount);
      case RaisedInvalidOperation =>
        return ServerError(InvalidOperation);
      case Number(amount) =>
        if amount <= 0.0 {
          return FormWithError(ContributionPage, ContributionNotPositive);
        }
        CreditRow(k.value, amount);
        return Redirect(SubscriptionDetail(id));
    }

    /** `pause_subscription_view`: on POST the caller's active row becomes paused. */
    method PauseSubscription(id: nat, caller: nat, isPost: bool) returns (resp: Response)
      requires Valid()
      modifies rows
      ensures Valid() && rows == old(rows) && nextId == old(nextId)
      ensures var k := FindOwned(old(Records()), id, caller, Active);
        && (k.None? ==> resp == NotFound && Records() == old(Records()))
        && (k.Some? && !isPost ==> resp == Form(PausePage) && Records() == old(Records()))
        && (k.Some? && isPost ==>
              && resp == Redirect(InvestmentDashboard)
              && Records() == old(Records())[k.value := old(Records())[k.value].(status := Paused)])
    {
      var k := FindOwned(Records(), id, caller, Active);
      if k.None? {
        return NotFound;
      }
      if !isPost {
        return Form(PausePage);
      }
      SetRowStatus(k.value, Paused);
      return Redirect(InvestmentDashboard);
    }

    /** `resume_subscription_view`: on POST the caller's paused row becomes active. */
    method ResumeSubscription(id: nat, caller: nat, isPost: bool) returns (resp: Response)
      requires Valid()
      modifies rows
      ensures Valid() && rows == old(rows) && nextId == old(nextId)
      ensures var k := FindOwned(old(Records()), id, caller, Paused);
        && (k.None? ==> resp == NotFound && Records() == old(Records()))
        && (k.Some? && !isPost ==> resp == Form(ResumePage) && Records() == old(Records()))
        && (k.Some? && isPost ==>
              && resp == Redirect(InvestmentDashboard)
              && Records() == old(Records())[k.value := old(Records())[k.value].(status := Active)])
    {
      var k := FindOwned(Records(), id, caller, Paused);
      if k.None? {
        return NotFound;
      }
      if !isPost {
        return Form(ResumePage);
      }
      SetRowStatus(k.value, Active);
      return Redirect(InvestmentDashboard);
    }

    /** Pausing an active subscription and then resuming it leaves the table
        exactly as it was. */
    method PauseThenResume(id: nat, caller: nat) returns (first: Response, second: Response)
      requires Valid()
      modifies rows
      ensures Valid() && rows == old(rows)
      ensures FindOwned(old(Records()), id, caller, Active).Some? ==>
                first == Redirect(InvestmentDashboard) && second == Redirect(InvestmentDashboard) && Records() == old(Records())
    {
      ghost var before := Records();
      ghost var k := FindOwned(before, id, caller, Active);
      if k.Some? {
        PauseResumeRecords(before, k.value, id, caller);
      }
      first := PauseSubscription(id, caller, true);
      second := ResumeSubscription(id, caller, true);
    }

    /** `+=` on one row's value and contributed total, then `save()`. */
    method CreditRow(k: nat, amount: real)
      requires Valid() && k < |rows|
      modifies rows
      ensures Valid() && rows == old(rows) && nextId == old(nextId)
      ensures Records() == old(Records())[k := Contributed(old(Records())[k], amount)]
    {
      RowsDistinct(k);
      rows[k].Credit(amount);
    }

    /** Assigning one row's `status`, then `save()`. */
    method SetRowStatus(k: nat, status: Status)
      requires Valid() && k < |rows|
      modifies rows
      ensures Valid() && rows == old(rows) && nextId == old(nextId)
      ensures Records() == old(Records())[k := old(Records())[k].(status := status)]
    {
      RowsDistinct(k);
      rows[k].SetStatus(status);
    }

    /** Rows with distinct ids are distinct objects. */
    lemma RowsDistinct(k: nat)
      requires Valid() && k < |rows|
      ensures forall i :: 0 <= i < |rows| && i != k ==> rows[i] != rows[k]
    {
      forall i | 0 <= i < |rows| && i != k
        ensures rows[i] != rows[k]
      {
        if i < k {
          assert Records()[i].id != Records()[k].id;
        } else {
          assert Records()[k].id != Records()[i].id;
        }
      }
    }
  }

  /** Pausing row k leaves it the one paused row the resume lookup finds, and
      setting it active again gives the table back. */
  lemma PauseResumeRecords(before: seq<SubscriptionRecord>, k: nat, id: nat, caller: nat)
    requires DistinctIds(before) && k < |before| && Matches(before[k], id, caller, Active)
    ensures var mid := before[k := before[k].(status := Paused)];
      && FindOwned(mid, id, caller, Paused) == Some(k)
      && mid[k := mid[k].(status := Active)] == before
  {
    var mid := before[k := before[k].(status := Paused)];
    assert forall i :: 0 <= i < |mid| ==> mid[i].id == before[i].id;
    FindOwnedUnique(mid, k, id, caller, Paused);
  }

  /** Appending a new row keeps the table's invariant when the gate found no
      row for its pair and its id is fresh. */
  lemma InsertKeepsValid(rs: seq<SubscriptionRecord>, r: SubscriptionRecord, bound: nat)
    requires DistinctIds(rs) && IdsBelow(rs, r.id) && UniquePairs(rs) && !HasRowFor(rs, r.owner, r.plan)
    requires r.id < bound
    ensures DistinctIds(rs + [r]) && IdsBelow(rs + [r], bound) && UniquePairs(rs + [r])
  {
    var t := rs + [r];
    forall i, j | 0 <= i < j < |t|
      ensures t[i].id != t[j].id && (t[i].owner != t[j].owner || t[i].plan != t[j].plan)
    {
      if j == |rs| {
        assert t[i] == rs[i];
      }
    }
  }

  /** The corrected gate keeps `unique_together`: appending a row for a pair
      that has no row yet leaves every pair unique. */
  lemma AnyRowGateKeepsPairsUnique(rs: seq<SubscriptionRecord>, r: SubscriptionRecord)
    requires UniquePairs(rs) && !HasRowFor(rs, r.owner, r.plan)
    ensures UniquePairs(rs + [r])
  {
    var t := rs + [r];
    forall i, j | 0 <= i < j < |t|
      ensures t[i].owner != t[j].owner || t[i].plan != t[j].plan
    {
      if j == |rs| {
        assert t[i] == rs[i];
      }
    }
  }

  /** Every duplicate the written gate catches, the corrected gate catches too. */
  lemma LiveGateWeaker(rs: seq<SubscriptionRecord>, owner: nat, plan: nat)
    ensures HasLiveRowFor(rs, owner, plan) ==> HasRowFor(rs, owner, plan)
  {
  }

  /** As written, a cancelled row passes the duplicate gate, and the insert
      that follows breaks `unique_together`: the database raises
      IntegrityError. */
  lemma LiveOnlyGateAdmitsDuplicate(plan: Plan, now: int)
    ensures var old_ := CreatedRecord(1, 7, plan, 100.0, now).(status := Cancelled);
      var rs := [old_];
      && UniquePairs(rs)
      && !HasLiveRowFor(rs, 7, plan.id)
      && HasRowFor(rs, 7, plan.id)
      && !UniquePairs(rs + [CreatedRecord(2, 7, plan, 100.0, now)])
  {
    var old_ := CreatedRecord(1, 7, plan, 100.0, now).(status := Cancelled);
    var t := [old_] + [CreatedRecord(2, 7, plan, 100.0, now)];
    assert t[0].owner == t[1].owner && t[0].plan == t[1].plan;
  }

  /** Lines 115-127 of the view as written, up to the insert: the amount is
      parsed, then compared with `plan.min_investment`, then the end date is
      computed from `plan.investment_duration`. Neither attribute exists on
      the plan, so the lookup raises AttributeError; a NULL column would raise
      TypeError in the comparison or the multiplication. `Redirect` here means
      the request went on to the insert. */
  function SubscribePostAsWritten(plan: Plan, initial: FormValue): Response
  {
    match ParseDecimal(initial)
    case RaisedTypeError => FormWithError(SubscribePage, InvalidInvestmentAmount)
    case RaisedInvalidOperation => ServerError(InvalidOperation)
    case Number(amount) =>
      match PlanAttribute(plan, "min_investment")
      case None => ServerError(AttributeError("min_investment"))
      case Some(None) => ServerError(TypeError)
      case Some(Some(minimum)) =>
        if amount < minimum then FormWithError(SubscribePage, BelowMinimum(minimum))
        else
          match PlanAttribute(plan, "investment_duration")
          case None => ServerError(AttributeError("investment_duration"))
          case Some(None) => ServerError(TypeError)
          case Some(Some(_)) => Redirect(InvestmentDashboard)
  }

  /** As written, no POST with a readable amount ever subscribes: it fails on
      the missing `min_investment` attribute before any row is written. */
  lemma MinimumGateAlwaysRaises(plan: Plan, amount: real)
    ensures SubscribePostAsWritten(plan, Given(amount)) == ServerError(AttributeError("min_investment"))
  {
    assert "min_investment" !in NumericColumns;
  }

  // ---------------------------------------------------------------------------
  // The dashboard
  // ---------------------------------------------------------------------------

  /** A row the dashboard shows: the user's own, active or paused. */
  predicate Shown(r: SubscriptionRecord, owner: nat)
  {
    r.owner == owner && IsLive(r.status)
  }

  function ShownRows(rs: seq<SubscriptionRecord>, owner: nat): (live: seq<SubscriptionRecord>)
    ensures |live| <= |rs|
    ensures forall r :: r in live <==> r in rs && Shown(r, owner)
  {
    if rs == [] then []
    else
      var rest := ShownRows(rs[..|rs| - 1], owner);
      var last := rs[|rs| - 1];
      assert forall r :: r in rs <==> r in rs[..|rs| - 1] || r == last;
      if Shown(last, owner) then rest + [last] else rest
  }

  /** The three summed columns. */
  datatype Column = TotalContributedColumn | CurrentValueColumn | MonthlyContributionColumn

  /** A column's value in one row; a NULL monthly amount adds nothing, as SQL SUM skips NULL. */
  function ColumnValue(r: SubscriptionRecord, c: Column): real
  {
    match c
    case TotalContributedColumn => r.totalContributed
    case CurrentValueColumn => r.currentValue
    case MonthlyContributionColumn => if r.monthlyContribution.Some? then r.monthlyContribution.value else 0.0
  }

  /** `aggregate(Sum(column))['…'] or Decimal(0)`: an empty or all-NULL sum is 0. */
  function Total(rs: seq<SubscriptionRecord>, c: Column): real
  {
    if rs == [] then 0.0 else Total(rs[..|rs| - 1], c) + ColumnValue(rs[|rs| - 1], c)
  }

  datatype DashboardTotals = DashboardTotals(
    totalInvested: real,
    currentValue: real,
    totalGain: real,
    overallRoi: real,
    subscriptionCount: nat,
    monthlyContributions: real)

  /** The arithmetic of `investment_dashboard_view`. */
  function Dashboard(rs: seq<SubscriptionRecord>, owner: nat): (d: DashboardTotals)
    ensures d.totalGain == d.currentValue - d.totalInvested
    ensures d.totalInvested > 0.0 ==> d.overallRoi * d.totalInvested == d.totalGain * 100.0
    ensures d.totalInvested <= 0.0 ==> d.overallRoi == 0.0
    ensures d.subscriptionCount <= |rs|
  {
    var live := ShownRows(rs, owner);
    var invested := Total(live, TotalContributedColumn);
    var value := Total(live, CurrentValueColumn);
    DashboardTotals(invested, value, value - invested, Roi(invested, value), |live|, Total(live, MonthlyContributionColumn))
  }

  lemma {:induction false} ShownRowsAppend(a: seq<SubscriptionRecord>, b: seq<SubscriptionRecord>, owner: nat)
    ensures ShownRows(a + b, owner) == ShownRows(a, owner) + ShownRows(b, owner)
  {
    if b == [] {
      assert a + b == a;
    } else {
      assert (a + b)[..|a + b| - 1] == a + b[..|b| - 1];
      ShownRowsAppend(a, b[..|b| - 1], owner);
    }
  }

  lemma {:induction false} TotalAppend(a: seq<SubscriptionRecord>, b: seq<SubscriptionRecord>, c: Column)
    ensures Total(a + b, c) == Total(a, c) + Total(b, c)
  {
    if b == [] {
      assert a + b == a;
    } else {
      assert (a + b)[..|a + b| - 1] == a + b[..|b| - 1];
      TotalAppend(a, b[..|b| - 1], c);
    }
  }

  /** Rows the dashboard does not show (another user's, or completed or
      cancelled ones) do not move any figure. */
  lemma DashboardIgnoresHidden(rs: seq<SubscriptionRecord>, r: SubscriptionRecord, owner: nat)
    requires !Shown(r, owner)
    ensures Dashboard(rs + [r], owner) == Dashboard(rs, owner)
  {
    assert (rs + [r])[..|rs + [r]| - 1] == rs;
  }

  /** A shown row adds its own figures to the dashboard's. */
  lemma DashboardAddsShown(rs: seq<SubscriptionRecord>, r: SubscriptionRecord, owner: nat)
    requires Shown(r, owner)
    ensures var d, e := Dashboard(rs, owner), Dashboard(rs + [r], owner);
      && e.totalInvested == d.totalInvested + r.totalContributed
      && e.currentValue == d.currentValue + r.currentValue
      && e.subscriptionCount == d.subscriptionCount + 1
      && e.monthlyContributions == d.monthlyContributions + ColumnValue(r, MonthlyContributionColumn)
  {
    assert (rs + [r])[..|rs + [r]| - 1] == rs;
  }

  /** The filter around one shown row keeps it between the shown rows on either side. */
  lemma ShownSplit(pre: seq<SubscriptionRecord>, x: SubscriptionRecord, post: seq<SubscriptionRecord>, owner: nat)
    requires Shown(x, owner)
    ensures ShownRows(pre + [x] + post, owner) == ShownRows(pre, owner) + [x] + ShownRows(post, owner)
  {
    ShownRowsAppend(pre + [x], post, owner);
    ShownRowsAppend(pre, [x], owner);
    assert ShownRows([x], owner) == [x] by { assert [x][..0] == []; }
  }

  /** The filter drops a hidden row. */
  lemma HiddenSplit(pre: seq<SubscriptionRecord>, x: SubscriptionRecord, post: seq<SubscriptionRecord>, owner: nat)
    requires !Shown(x, owner)
    ensures ShownRows(pre + [x] + post, owner) == ShownRows(pre, owner) + ShownRows(post, owner)
  {
    ShownRowsAppend(pre + [x], post, owner);
    ShownRowsAppend(pre, [x], owner);
    assert ShownRows([x], owner) == [] by { assert [x][..0] == []; }
  }

  /** A column total around one row is the row's value plus the totals on either side. */
  lemma TotalSplit(a: seq<SubscriptionRecord>, x: SubscriptionRecord, b: seq<SubscriptionRecord>, c: Column)
    ensures Total(a + [x] + b, c) == Total(a, c) + ColumnValue(x, c) + Total(b, c)
  {
    TotalAppend(a + [x], b, c);
    TotalAppend(a, [x], c);
    assert Total([x], c) == ColumnValue(x, c) by { assert [x][..0] == []; }
  }

  /** Replacing one shown row by another shown row moves each total by the
      difference of the two rows' figures and keeps the count. */
  lemma DashboardReplace(rs: seq<SubscriptionRecord>, k: nat, r: SubscriptionRecord, owner: nat, c: Column)
    requires k < |rs| && Shown(rs[k], owner) && Shown(r, owner)
    ensures Total(ShownRows(rs[k := r], owner), c) == Total(ShownRows(rs, owner), c) - ColumnValue(rs[k], c) + ColumnValue(r, c)
    ensures |ShownRows(rs[k := r], owner)| == |ShownRows(rs, owner)|
  {
    var pre, post := rs[..k], rs[k + 1..];
    assert rs == pre + [rs[k]] + post;
    assert rs[k := r] == pre + [r] + post;
    ShownSplit(pre, rs[k], post, owner);
    ShownSplit(pre, r, post, owner);
    var sp, sq := ShownRows(pre, owner), ShownRows(post, owner);
    TotalSplit(sp, rs[k], sq, c);
    TotalSplit(sp, r, sq, c);
  }

  /** Two tables whose shown rows agree in count and in every column total
      show the same dashboard. */
  lemma DashboardCongruence(a: seq<SubscriptionRecord>, b: seq<SubscriptionRecord>, owner: nat)
    requires |ShownRows(a, owner)| == |ShownRows(b, owner)|
    requires forall c: Column :: Total(ShownRows(a, owner), c) == Total(ShownRows(b, owner), c)
    ensures Dashboard(a, owner) == Dashboard(b, owner)
  {
    assert Total(ShownRows(a, owner), TotalContributedColumn) == Total(ShownRows(b, owner), TotalContributedColumn);
    assert Total(ShownRows(a, owner), CurrentValueColumn) == Total(ShownRows(b, owner), CurrentValueColumn);
    assert Total(ShownRows(a, owner), MonthlyContributionColumn) == Total(ShownRows(b, owner), MonthlyContributionColumn);
  }

  /** Switching a row between active and paused keeps the shown rows' count
      and every column total. */
  lemma LiveStatusKeepsTotals(rs: seq<SubscriptionRecord>, k: nat, s: Status, owner: nat)
    requires k < |rs| && IsLive(rs[k].status) && IsLive(s)
    ensures |ShownRows(rs[k := rs[k].(status := s)], owner)| == |ShownRows(rs, owner)|
    ensures forall c: Column :: Total(ShownRows(rs[k := rs[k].(status := s)], owner), c) == Total(ShownRows(rs, owner), c)
  {
    var r := rs[k].(status := s);
    if rs[k].owner == owner {
      forall c: Column
        ensures Total(ShownRows(rs[k := r], owner), c) == Total(ShownRows(rs, owner), c)
      {
        DashboardReplace(rs, k, r, owner, c);
        assert ColumnValue(r, c) == ColumnValue(rs[k], c);
      }
      DashboardReplace(rs, k, r, owner, TotalContributedColumn);
    } else {
      HiddenReplace(rs, k, r, owner);
    }
  }

  /** Pausing (or resuming) a shown row leaves every dashboard figure as it was. */
  lemma PauseKeepsDashboard(rs: seq<SubscriptionRecord>, k: nat, s: Status, owner: nat)
    requires k < |rs| && IsLive(rs[k].status) && IsLive(s)
    ensures Dashboard(rs[k := rs[k].(status := s)], owner) == Dashboard(rs, owner)
  {
    LiveStatusKeepsTotals(rs, k, s, owner);
    DashboardCongruence(rs[k := rs[k].(status := s)], rs, owner);
  }

  /** Replacing a hidden row by a hidden row changes nothing the dashboard shows. */
  lemma HiddenReplace(rs: seq<SubscriptionRecord>, k: nat, r: SubscriptionRecord, owner: nat)
    requires k < |rs| && !Shown(rs[k], owner) && !Shown(r, owner)
    ensures ShownRows(rs[k := r], owner) == ShownRows(rs, owner)
  {
    var pre, post := rs[..k], rs[k + 1..];
    assert rs == pre + [rs[k]] + post;
    assert rs[k := r] == pre + [r] + post;
    HiddenSplit(pre, rs[k], post, owner);
    HiddenSplit(pre, r, post, owner);
  }

  /** A contribution of `amount` to a shown row raises the invested total and
      the current value by `amount` each and leaves the gain and the count. */
  lemma ContributionOnDashboard(rs: seq<SubscriptionRecord>, k: nat, amount: real, owner: nat)
    requires k < |rs| && Shown(rs[k], owner)
    ensures var d, e := Dashboard(rs, owner), Dashboard(rs[k := Contributed(rs[k], amount)], owner);
      && e.totalInvested == d.totalInvested + amount
      && e.currentValue == d.currentValue + amount
      && e.totalGain == d.totalGain
      && e.subscriptionCount == d.subscriptionCount
      && e.monthlyContributions == d.monthlyContributions
  {
    var r := Contributed(rs[k], amount);
    DashboardReplace(rs, k, r, owner, TotalContributedColumn);
    DashboardReplace(rs, k, r, owner, CurrentValueColumn);
    DashboardReplace(rs, k, r, owner, MonthlyContributionColumn);
  }

  /** With nothing shown every figure is zero. */
  lemma {:induction false} EmptyDashboard(rs: seq<SubscriptionRecord>, owner: nat)
    requires forall i :: 0 <= i < |rs| ==> !Shown(rs[i], owner)
    ensures ShownRows(rs, owner) == []
    ensures Dashboard(rs, owner) == DashboardTotals(0.0, 0.0, 0.0, 0.0, 0, 0.0)
  {
    if rs != [] {
      EmptyDashboard(rs[..|rs| - 1], owner);
    }
  }
}

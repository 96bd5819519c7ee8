# Creypinvest business rules in Dafny

This project models the business rules of the Creypinvest Django investment
site:

- **Plans.** An investment plan splits money over five asset classes.
- **Grants.** Each plan carries promotion grants: a fixed or percentage bonus,
  with a validity window, a minimum investment and an optional per-user cap.
- **Subscriptions.** A user subscribes to a plan. Afterwards they can add
  contributions, pause and resume, and follow their holdings on a dashboard
  that shows totals and an overall ROI.
- **KYC.** Users upload KYC documents. Approving or rejecting a document
  recomputes the profile's verification tier (0 to 3). The admin pages
  approve or reject documents in batches.
- **Sign-up.** Creating a user creates its profile and its wallet, through
  `post_save` signals.
- **Admin columns.** The admin pages render allocation summaries, money,
  grant figures and colour badges.
- **Seeding.** A management command replaces the plan catalogue with eight
  sample plans, their 46 portfolio assets and three promotion grants.

How the model represents the site:

- Money and percentages are `real`. The five class allocations are whole
  percentages (`int`).
- Time is whole seconds, passed in as an explicit `now` parameter.
- A field of an HTML form is a `FormValue`: Absent, Blank, Malformed or
  Given(number).
- Rows that the source updates in place are objects: a `Subscription` row, the
  `Ledger` subscription table, the users app's `Accounts` tables, and the
  seed command's `Catalog`.
- Everything the source computes without side effects is a function, and
  lemmas state what it computes.

Files:

- `common.dfy`: shared vocabulary.
- `text.dfy`: integer and two-place decimal rendering, `join`.
- `plans.dfy`: plans and their allocations.
- `grants.dfy`: promotion grants.
- `subscriptions.dfy`: a subscription row.
- `views.dfy`: the investment views.
- `accounts.dfy`: the users app models and signals.
- `users_admin.dfy`: the KYC batch actions.
- `core_admin.dfy`: the investment admin columns.
- `seed.dfy`: the seed command.

## Model

| member | source | states |
|---|---|---|
| Common.ParseDecimal | core/views.py:115-116 | `Decimal(None)` raises TypeError exactly when the field is missing. Only a well-formed number parses, and it parses to its own value. Blank and malformed strings raise InvalidOperation. |
| Plans.AssetAllocation | core/models.py:127-135 | The dictionary has exactly the keys crypto, real_estate, stocks, bonds and cash. Each key maps to the matching allocation field. |
| Plans.AllocationMapAgrees | core/models.py:137-146 | `validate_allocation` holds iff the values of the `get_asset_allocation` dictionary total 100. |
| Plans.ValidatedPlanHoldsSomething | core/models.py:55-79 | A plan whose allocations lie within the 0..100 validators and total 100 has at least one positive class. |
| Plans.PlanAttribute | core/models.py:36-112 | Reading a numeric attribute by name succeeds iff the name is one of the fifteen numeric columns the plan declares (the eight Decimal and seven integer columns). It yields NULL exactly for an empty `maximum_investment` or `historical_performance`, and every other numeric column always holds a number. `minimum_investment` yields the minimum. `recommended_duration_months` (core/models.py:82) yields the duration. |
| Grants.WindowInclusive | core/models.py:341-344 | An active grant is valid at both ends of its window, and invalid one second before it opens or after it closes. |
| Grants.CalculateGrantAmount | core/models.py:346-361 | The result is 0 outside the window or when the grant is inactive. A nonzero fixed amount bounds the result, and so does the investment. A nonzero cap bounds the result, which is then min(uncapped, cap). With no cap, or a zero cap, the result is the uncapped bonus. |
| Grants.FixedAmountWins | core/models.py:351-352 | A nonzero fixed amount F yields min(F, investment), and removing the percentage changes nothing. |
| Grants.PercentageGrant | core/models.py:353-354 | With no nonzero fixed amount, a nonzero percentage P yields investment·P/100, clamped by a nonzero cap. |
| Grants.NoAmountNoGrant | core/models.py:355-356 | With neither a nonzero amount nor a nonzero percentage, the bonus is 0. |
| Grants.ZeroCapIsNoCap | core/models.py:358-359 | A cap of 0 gives the same amount as no cap. |
| Grants.GrantBounds | core/models.py:346-361 | With non-negative settings, a percentage of at most 100 and a non-negative investment, the bonus lies between 0 and the investment. |
| Grants.ApplicableGrants | core/views.py:146-151 | A grant is selected iff it is in the list, belongs to the plan, is active and in its window, and its minimum does not exceed the investment. A selected grant occurs as often as in the list, any other not at all. |
| Grants.PositiveGrantSumAppend | core/views.py:153-157 | The bonus over two lists of grants is the sum of the bonuses over each list. |
| Grants.PositiveGrantSumSwap | core/views.py:153-157 | Visiting one block of grants before or after another gives the same bonus. |
| Grants.PositiveGrantSumRemove | core/views.py:153-157 | Taking one grant out of a list lowers the bonus by exactly that grant's amount when positive, and by nothing otherwise. |
| Grants.PositiveGrantSumPermutation | core/views.py:153-157 | The order in which grants are visited does not change the bonus: two lists holding the same grants, each as often, give the same bonus. |
| Grants.NothingEligibleNoBonus | core/views.py:153-160 | When no grant is valid now, the bonus is 0. |
| Subscriptions.StatusCodeInjective | core/models.py:154-159 | Distinct statuses are stored under distinct codes. |
| Subscriptions.Roi | core/models.py:197-203 | With a positive stake, ROI × stake equals (value − stake) × 100. Otherwise the ROI is 0. |
| Subscriptions.RoiExample | core/models.py:197-203 | 1000 grown to 1100 is a 10% return. |
| Subscriptions.RoiSign | core/models.py:197-203 | With a positive stake, the ROI is ≥ 0 iff the value is at least the stake, and 0 iff the value equals the stake. |
| Subscriptions.RoiMonotone | core/models.py:197-203 | Against a fixed positive stake, a higher value never gives a lower ROI. |
| Subscriptions.Subscription.constructor | core/models.py:161-188 | A new row holds the given stake as initial investment, current value and contributed total. Returns and ROI start at 0, the status is active and the start date is now. The optional columns start empty. |
| Subscriptions.Subscription.CalculateRoi | core/models.py:197-203 | Returns the ROI of the row. It stores the ROI in `roi_percentage` only when the stake is positive; otherwise it returns 0 and leaves the column as it was. |
| Subscriptions.Subscription.DurationRemaining | core/models.py:205-210 | Never negative, and 0 unless active. While active and before the end, d whole days fit into the time left and d + 1 do not. After the end it is 0. |
| Subscriptions.RemainingShrinks | core/models.py:205-210 | A later reading never shows more days. |
| Subscriptions.RemainingAroundEnd | core/models.py:205-210 | An active row has 0 days left at its planned end and 1 day left a full day before it. |
| InvestmentViews.FindOwned | core/views.py:271-276 | The lookup returns an index whose row has the id, the owner and the status, or reports that no row matches. |
| InvestmentViews.FindOwnedUnique | core/views.py:271-276 | With distinct ids, the lookup finds exactly the matching row. |
| InvestmentViews.SubscribedRecordFacts | core/views.py:127-163 | After a successful subscribe, the initial investment is the amount. The value and the contributed total are both amount + bonus, where the bonus is the positive grant sum over the applicable grants. The row is active, and its planned end is duration × 30 days from now. A next contribution date 30 days away, and a monthly amount, are set exactly when a monthly amount was given. |
| InvestmentViews.TotalGrant | core/views.py:153-157 | The loop's total equals the positive grant sum over the list, so it is never negative. |
| InvestmentViews.NewSubscription | core/views.py:130-165 | The new row is `SubscribedRecord` of the inputs. A malformed monthly amount ends in a server error and leaves the freshly created row as created. |
| InvestmentViews.ContributionKeepsGain | core/views.py:291-292 | A contribution leaves value − contributed unchanged and changes no other field. |
| InvestmentViews.Ledger.constructor | core/models.py:190-191 | An empty table satisfies the table invariant. |
| InvestmentViews.Ledger.Subscribe | core/views.py:96-187 | Every outcome of the view, with the table before and after. An inactive plan gives 404. An existing row for the pair redirects to the plan. A GET shows the form. A missing amount gives the form error; a blank or malformed one, a server error. An amount below the minimum gives the minimum error. In all of these the table and the next id are unchanged. Otherwise exactly one row is appended: `SubscribedRecord` of the inputs. IDs stay distinct and (user, plan) pairs stay unique throughout. |
| InvestmentViews.Ledger.AddContribution | core/views.py:268-307 | These outcomes leave the table unchanged: no active row of the caller with that id (404), a GET, a missing, blank, malformed or non-positive amount. Otherwise exactly that row's value and contributed total rise by the amount. |
| InvestmentViews.Ledger.PauseSubscription | core/views.py:310-331 | Only the caller's active row, and only on POST, becomes paused. Every other outcome leaves the table unchanged. |
| InvestmentViews.Ledger.ResumeSubscription | core/views.py:334-355 | Only the caller's paused row, and only on POST, becomes active. Every other outcome leaves the table unchanged. |
| InvestmentViews.Ledger.PauseThenResume | core/views.py:315-349 | Pausing an active row and then resuming it redirects twice and restores the table exactly. |
| InvestmentViews.Ledger.CreditRow | core/views.py:291-293 | Only row k changes, by a contribution of the amount. |
| InvestmentViews.InsertKeepsValid | core/models.py:191 | Appending a row with a fresh id, for a pair that has no row yet, keeps ids distinct and pairs unique. |
| InvestmentViews.AnyRowGateKeepsPairsUnique | core/models.py:191 | The corrected gate (any row for the pair) keeps `unique_together`. |
| InvestmentViews.LiveGateWeaker | core/views.py:101-109 | Every duplicate the live-only gate catches, the any-row gate catches too. |
| InvestmentViews.LiveOnlyGateAdmitsDuplicate | core/views.py:101-109 | A table holding one cancelled row for (user, plan) passes the written gate. Appending the new row for the same pair then breaks `unique_together`. |
| InvestmentViews.MinimumGateAlwaysRaises | core/views.py:118-124 | As written, every POST with a readable amount raises AttributeError on `min_investment` before anything is inserted. |
| InvestmentViews.ShownRows | core/views.py:195-198 | A row is shown iff it is in the table, belongs to the user and is active or paused. |
| InvestmentViews.Dashboard | core/views.py:200-226 | The gain is value − invested. With a positive invested total, overall ROI × invested equals gain × 100; otherwise the ROI is 0. The count is at most the table size. |
| InvestmentViews.ShownRowsAppend | core/views.py:195-198 | The filter distributes over concatenation. |
| InvestmentViews.TotalAppend | core/views.py:201-217 | A column total over two row lists is the sum of the two totals. |
| InvestmentViews.DashboardIgnoresHidden | core/views.py:195-208 | A row of another user, or one that is completed or cancelled, moves no dashboard figure. |
| InvestmentViews.DashboardAddsShown | core/views.py:195-226 | A shown row adds its own contributed total, value and monthly amount to the totals (a NULL monthly amount adds 0, core/views.py:212-213), and adds one to the count. |
| InvestmentViews.DashboardReplace | core/views.py:201-226 | Replacing a shown row with another shown row moves each total by the difference of the two rows, and keeps the count. |
| InvestmentViews.LiveStatusKeepsTotals | core/views.py:195-226 | Moving a row from one live status to another leaves the shown count and every dashboard column total unchanged. |
| InvestmentViews.Ledger.SetRowStatus | core/views.py:323-324 | The `status` assignment and `save()` change that one row's status and nothing else in the table. |
| InvestmentViews.PauseKeepsDashboard | core/views.py:323 | Switching a row between active and paused leaves every dashboard figure unchanged. |
| InvestmentViews.HiddenReplace | core/views.py:195-198 | Replacing a hidden row with another hidden row leaves the shown rows unchanged. |
| InvestmentViews.ContributionOnDashboard | core/views.py:291-292 | A contribution to a shown row raises the invested and current totals by the amount, and leaves the gain and the count unchanged. |
| InvestmentViews.EmptyDashboard | core/views.py:201-208 | With nothing shown, every total and the ROI are 0. |
| Users.NewRowDefaults | users/models.py:36-43 | A new profile has tier 0, 0 referral clicks, no deposit and no sign-up confirmation. A new wallet (users/models.py:83-89) holds "00.00" balance and invested, no PIN and no address. |
| Users.Level | users/models.py:64-80 | The tier lies between 0 and 3. It is 3 iff a loan document is approved, ≥ 2 iff a loan or financial one is, and ≥ 1 iff any of loan, financial or id is. |
| Users.LevelMonotone | users/models.py:69-76 | More approved types never lower the tier. |
| Users.OtherNeverCounts | users/models.py:69-76 | "other" documents never move the tier. |
| Users.UnapprovedIgnored | users/models.py:68 | A document that is not approved adds no type. |
| Users.DuplicateIgnored | users/models.py:69 | A second approved document of a type already approved adds nothing. |
| Users.OrderIgnored | users/models.py:69 | The order of the documents does not change the approved types. |
| Users.ApproveAddsType | users/models.py:168-170 | Approving a document adds exactly its type to its profile's approved types. |
| Users.RejectShrinks | users/models.py:177-179 | Rejecting a document can only remove approved types. |
| Users.OtherProfileUntouched | users/models.py:68 | Changing another profile's document leaves this profile's approved types unchanged. |
| Users.RejectCanLowerLevel | users/models.py:177-183 | Rejecting the only approved id document drops the tier from 1 to 0. |
| Users.Accounts.UpdateVerificationLevel | users/models.py:64-80 | Only the profile's tier changes, and it becomes the level its approved types earn. |
| Users.Accounts.Approve | users/models.py:168-175 | Only the document's status changes, to approved. Its profile's tier becomes current and never ends below the tier earned before. |
| Users.Accounts.Reject | users/models.py:177-183 | Only the document's status changes, to rejected. Its profile's tier becomes current and never ends above the tier earned before. |
| Users.Accounts.WalletSignal | users/models.py:192-195 | A created profile gets one new default wallet; a re-saved one gets nothing. |
| Users.Accounts.ProfileSignal | users/models.py:185-189 | A created user gets one profile and, through the wallet signal, one wallet. A re-save adds nothing. |
| Users.Accounts.CreateUser | users/models.py:185-195 | Exactly one user, one default profile and one default wallet are added, tied to the new id. The invariants still hold. |
| Users.Accounts.SaveUser | users/models.py:185-195 | Saving an existing user creates no profile and no wallet. |
| UsersAdmin.ApproveDocuments | users/admin.py:17-20 | Every selected document is approved and every other one is unchanged. Every affected profile's tier is current, and its other fields are as they were. Unaffected profiles are unchanged. The reported count is the size of the selection. |
| UsersAdmin.RejectDocuments | users/admin.py:24-27 | The same as ApproveDocuments, with every selected document rejected. |
| CoreAdmin.AllocationSummary | core/admin.py:83-95 | The text built by appending parts equals the summary defined from the filtered segments. |
| CoreAdmin.AppendIfPositive | core/admin.py:85-94 | Appending a class's part exactly when its percentage is positive keeps the parts equal to the texts of the classes kept so far. |
| CoreAdmin.PartsPositiveInOrder | core/admin.py:84-94 | The parts are exactly the classes with a positive percentage, in the order C, RE, S, B, Ca. |
| CoreAdmin.PartCount | core/admin.py:84-94 | There is one part per strictly positive class. |
| CoreAdmin.NoAllocationIff | core/admin.py:95 | Within the 0..100 validators, the summary is "No allocation" iff all five classes are 0. |
| CoreAdmin.SummarySeparators | core/admin.py:95 | n parts hold exactly n − 1 bars. The text begins with the first part and ends with the last. |
| CoreAdmin.StarterSummary | core/admin.py:83-95 | The Starter split renders as "C:30% \| S:40% \| B:20% \| Ca:10%". |
| CoreAdmin.ExpectedReturnDisplay | core/admin.py:79-80 | A return of h hundredths renders as its integer digits, ".", two digits, then "%". The digits read back as h. |
| CoreAdmin.StarterExpectedReturn | core/admin.py:79-80 | The Starter plan's 12.5 shows as "12.50%". |
| CoreAdmin.MoneyTextUngrouped | core/admin.py:152-157 | A money column starts with "$". With its thousands commas removed, it is the plain two-place rendering of the rounded amount. |
| CoreAdmin.GrantDisplay | core/admin.py:260-265 | The text starts with "$" iff the fixed amount is nonzero. It ends with "%" iff only the percentage is nonzero. It is "N/A" iff neither is. |
| CoreAdmin.GrantDisplayAgreesWithCalculation | core/admin.py:260-265 | The figure shown is the one the bonus arithmetic (core/models.py:351-356) uses. |
| CoreAdmin.RiskLevelColor | core/admin.py:66-76 | Known risk levels get their colour; the result is "#000" iff the level is unknown. |
| CoreAdmin.StatusBadgeColor | core/admin.py:160-171 | Known statuses get their colour; the result is "#999" iff the status is unknown. |
| CoreAdmin.StatusBadgeColorsDistinct | core/admin.py:160-171 | Every stored status has its own colour, none of them the default. |
| CoreAdmin.RoiColor | core/admin.py:176 | Green iff the ROI is ≥ 0, red iff it is < 0. |
| CoreAdmin.EscapeKeepsPlain | core/admin.py:177-181 | `escape` leaves a text made of digits, signs and points unchanged. |
| CoreAdmin.CentsTextPlain | core/admin.py:177-181 | A two-place rendering holds only a sign, digits and a point. |
| CoreAdmin.FormatFixed2 | core/admin.py:178 | `{:.2f}` raises ValueError iff its argument is text. A number renders rounded half to even at two places. |
| CoreAdmin.RoiCell | core/admin.py:177-181 | The cell is rendered iff the argument that reaches `{:.2f}` is a number. |
| CoreAdmin.EscapedRoiNeverRenders | core/admin.py:177-181 | After `format_html` escapes the ROI, the cell raises ValueError whatever the ROI's text. |
| CoreAdmin.RoiDisplay | core/admin.py:174-181 | As written: like `calculate_roi`, it stores the ROI on the row when the stake is positive. The colour is the ROI's; with a positive stake it is green iff the value is at least the stake. The cell always ends in ValueError. |
| CoreAdmin.RoiDisplayFixed | core/admin.py:174-181 | Corrected: the same stored ROI and colour, and the cell is the ROI at two places followed by "%". |
| Text.ParseNatText | core/admin.py:86-94 | Reading `str(n)` back as digits gives n. |
| Text.UngroupGroupedText | core/admin.py:153 | Removing the thousands commas from a grouped integer gives its plain rendering. |
| Text.JoinBarCount | core/admin.py:95 | Joining n bar-free parts with " \| " yields exactly n − 1 bars. |
| Text.JoinEnds | core/admin.py:95 | A joined text begins with its first part and ends with its last. |
| Seed.SeedNamesDistinct | core/management/commands/seed_investment_plans.py:17-214 | No two sample plans share a name. |
| Seed.SeedAllocationsValid | core/management/commands/seed_investment_plans.py:17-214 | Every created plan passes `validate_allocation` and the 0..100 validators. |
| Seed.SeedMinimumsOrdered | core/management/commands/seed_investment_plans.py:17-214 | Every sample minimum is positive and at most the recommended investment. |
| Seed.AssetsAgreeWithSplit | core/management/commands/seed_investment_plans.py:33-112 | In the Starter, Couples, Retirement, Education, Wealth and Crypto plans, the asset rows add up, class by class, to the plan's split. |
| Seed.AssetsDisagreeWithSplit | core/management/commands/seed_investment_plans.py:131-160 | The Travel plan lists no cash asset against its 10% cash. The Emergency plan's rows give stocks 0, bonds 40 and cash 55 against its 15/30/50. |
| Seed.StarterDescriptionQuotesSplit | core/management/commands/seed_investment_plans.py:21-30 | The Starter description quotes each class with the plan's own percentage for it: crypto 30, stocks 40, bonds 20, cash 10. |
| Seed.NewPlan | core/management/commands/seed_investment_plans.py:219 | A created plan carries the entry's name, minimum, duration and allocations, with 0 for a missing allocation, and is active. |
| Seed.SeededPlans | core/management/commands/seed_investment_plans.py:216-233 | The first k plans, the i-th created under id first + i. |
| Seed.AssetRows | core/management/commands/seed_investment_plans.py:222-231 | One asset row per entry, in order, each pointing at the plan. |
| Seed.Lookup | core/management/commands/seed_investment_plans.py:239-241 | `get(name=...)` finds nothing iff no plan has the name; otherwise it returns the id of a plan with that name. |
| Seed.LookupDistinct | core/management/commands/seed_investment_plans.py:239-241 | With distinct names, `get` returns the one plan with the name. |
| Seed.PlanSeedsFit | core/management/commands/seed_investment_plans.py:17-214 | The sample list has eight plans under distinct names, with Starter first, Couples second and Crypto last. |
| Seed.SeededLookups | core/management/commands/seed_investment_plans.py:239-241 | For any plan list of that shape, on the freshly seeded table the three lookups return the ids the Starter, Couples and Crypto plans were created under. |
| Seed.LookupFound | core/management/commands/seed_investment_plans.py:239-241 | A plan that `get` finds is in the table. |
| Seed.GrantsOwned | core/management/commands/seed_investment_plans.py:243-278 | Attaching the three grants to plans that `get` found keeps the tables valid. |
| Seed.SeededGrants | core/management/commands/seed_investment_plans.py:243-278 | Three grants, attached to the Starter, Couples and Crypto plans in that order. |
| Seed.SeededGrantsShape | core/management/commands/seed_investment_plans.py:243-275 | Each grant is active and sets exactly one of a fixed amount and a percentage. Its window opens now and closes later, and it is valid at both ends. The welcome bonus is capped at 500. |
| Seed.StarterWelcomeBonus | core/management/commands/seed_investment_plans.py:244-254 | 100 in the Starter plan collects 5, so the subscription is credited to 105. 20000 collects the cap of 500. |
| Seed.FixedGrantExamples | core/management/commands/seed_investment_plans.py:255-274 | 1000 in the Couples plan collects 200. 10000 in the Crypto plan collects 500; 9999.99 collects nothing. |
| Seed.SeededIds | core/management/commands/seed_investment_plans.py:216-219 | The first k plans hold exactly the ids first .. first + k − 1. |
| Seed.SeededAssetsOwned | core/management/commands/seed_investment_plans.py:217-231 | Every asset row belongs to one of the plans created. |
| Seed.SeededAssetCount | core/management/commands/seed_investment_plans.py:217-231 | The command creates 46 asset rows. |
| Seed.SeededTablesValid | core/management/commands/seed_investment_plans.py:216-233 | The freshly created plan and asset tables have unique plan ids below the next id handed out. Every asset points at a plan. |
| Seed.Catalog.Handle | core/management/commands/seed_investment_plans.py:11-281 | If any plan is referenced by a subscription, the delete raises ProtectedError and no table changes. Otherwise the tables become exactly the seeded plans, assets and grants, and the created count is 8. |
| Seed.Catalog.Reseed | core/management/commands/seed_investment_plans.py:15-281 | Deleting, then creating from any plan list of the sample's shape, leaves exactly the tables that list seeds and a count of its length. |
| Seed.Catalog.CreatePlans | core/management/commands/seed_investment_plans.py:216-233 | The loop appends the seeded plans and assets under consecutive ids and counts each plan. |
| Seed.Catalog.CreatePlan | core/management/commands/seed_investment_plans.py:218-231 | One plan under the next id, followed by its assets. |
| Seed.Catalog.CreateAssets | core/management/commands/seed_investment_plans.py:222-231 | One asset row per entry, appended in order. |
| Seed.Catalog.AttachGrants | core/management/commands/seed_investment_plans.py:239-278 | On the freshly created tables, the lookups succeed. The grant table becomes exactly the three seeded grants on the plans found, and the tables are valid. |

## Left out

- dashboard/views.py is not part of this model. It is request handling and
  file uploads. Its wallet arithmetic works on strings summed as floats.
- HTTP is not modelled: rendering, templates, messages, `login_required` and
  the `update_user_ip` decorator. A view's outcome is a `Response` value,
  and `get_object_or_404` is a lookup that returns an index or nothing.
- Not modelled because they are I/O:
  - the referral view and the contact email (cookies and email delivery);
  - profile image resizing;
  - the random `hash_id` of a transaction;
  - the file-cleanup signal.
- Plans.PlanAttribute: only the numeric columns are readable by name. Text,
  boolean and date columns, methods, `pk` and the reverse relations
  (`subscriptions`, `portfolio_assets`, `grants`) are not modelled as
  attributes, because the only lookups the model needs are the two numeric
  ones of the subscribe view. None of them is called `min_investment` or
  `investment_duration`, the names core/views.py:118-126 reads.
- Not modelled because they are not business rules: URL routing, the scripts
  that patch the database, the superuser script and the WSGI entry point.
- Concurrency and transactions are not modelled. Requests run one after
  another, so the read-modify-write race on `current_value` is out of scope.
- Decimal numbers are not fully modelled:
  - Column quantisation (max_digits / decimal_places on save) is left out.
  - Values are exact reals, and non-finite Decimals are not modelled.
  - A form field's text is classified as Absent, Blank, Malformed or a
    number; the model does not parse the string itself.
- A blank or non-numeric amount ends in a server error, and the model follows
  the code. The handler `except (ValueError, TypeError)` with its message
  "Invalid investment amount" (core/views.py:167-172) shows that a form error
  was meant. But `Decimal("abc")` and `Decimal("")` raise
  `decimal.InvalidOperation`. That exception is neither ValueError nor
  TypeError, so it escapes the handler. The same holds in the contribution
  view (core/views.py:297-301). This is not listed under Findings because
  the evident fix, catching `InvalidOperation` too, changes only which error
  page is shown.
- `CoreAdmin.FormatFixed2`: a result that rounds to zero from below renders
  as "0.00" in the model. Decimal keeps the sign and renders "-0.00".
- `CoreAdmin.ConditionalEscape`: `str()` of an arbitrary Decimal is not
  modelled. Its text is a parameter, which `RoiDisplay`'s outcome does not
  depend on.
- The `get_*_display` labels and the HTML of the colour badges are not
  modelled; only the colours and texts are.
- The status, risk and category choice lists are not enforced on stored
  values.
- The seed command's stdout messages are not modelled.
- Time is whole seconds, so microseconds are dropped. `timezone.now()` is read
  once per request or command. The source calls it several times, a few
  microseconds apart. For the subscribe view and the grants' windows, this
  means the model compares the windows against a single instant.
- `Subscriptions.Subscription.DurationRemaining`: `timedelta.days` is modelled
  as whole seconds divided by 86400 and rounded down. This is what `.days`
  does for a negative difference too, but sub-second parts are dropped.
- The browse, plan-detail and subscription-detail views are not modelled as
  views: they only read and render. The model functions they call
  (`calculate_roi`, `get_duration_remaining`, `get_asset_allocation`) are
  modelled.
- The `except Exception: pass` around the tier recompute in
  `update_verification_level`, `approve` and `reject` is not modelled. The
  model's recompute cannot fail.
- The read-only `first_name` and `last_name` properties of a profile are not
  modelled. Neither is the many-to-many `refers` field.
- `Seed.Lookup`: `get` raises MultipleObjectsReturned when two plans share a
  name. The model returns the first match instead. No two seeded plans share
  a name (see `Seed.SeedNamesDistinct`), and the plan name column is unique.
- The monthly contribution schedule table, rebalancing and the
  `total_returns` and `actual_end_date` updates are not modelled. No view in
  the modelled core writes them.

## Findings

| source | as written | input that shows it | evidently intended | confidence | as-written member | corrected member |
|---|---|---|---|---|---|---|
| core/views.py:119-127 | The subscribe view reads `plan.min_investment` and `plan.investment_duration`. The plan model declares neither; its fields are `minimum_investment` (core/models.py:36) and `recommended_duration_months` (core/models.py:82). | Any POST whose amount is a number, for example "500" on an active plan with no row of the user: AttributeError, and no subscription is created. | The minimum gate compares against `minimum_investment`. The end date is `recommended_duration_months` × 30 days away. | high, not executed | InvestmentViews.MinimumGateAlwaysRaises | InvestmentViews.Ledger.Subscribe |
| core/admin.py:177-181 | `roi_display` passes the ROI itself to `format_html('...{:.2f}%...', color, roi)`. `format_html` runs every argument through `conditional_escape`, so `{:.2f}` receives a `SafeString`, a `str`, and raises ValueError. | Any subscription row in the admin changelist, for example stake 1000 and value 1100: the ROI column raises instead of showing "10.00%". | Format the number first and let `format_html` escape the text: `format_html('...{}%...', color, f'{roi:.2f}')`. | high, not executed | CoreAdmin.RoiDisplay | CoreAdmin.RoiDisplayFixed |
| core/views.py:101-109 | The duplicate gate looks only for an active or paused row of the (user, plan) pair. `unique_together` (core/models.py:191) forbids any second row for the pair. | A user whose earlier subscription to the plan is cancelled: the gate lets the POST through. As written, that POST then raises the same AttributeError as every numeric POST (the core/views.py:119-127 row); once the attribute names are corrected, it reaches the insert, which raises IntegrityError. | Any existing row for the pair counts as a duplicate and redirects to the plan. | high, not executed | InvestmentViews.LiveOnlyGateAdmitsDuplicate | InvestmentViews.AnyRowGateKeepsPairsUnique |

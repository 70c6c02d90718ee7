# Hayyakom campaign bookkeeping in Dafny

Hayyakom is a Django crowdfunding site. Company owners run funding
campaigns with a goal and an end date. Investors pledge between 2000 and
5000 BD through a hosted checkout. A management command, when it is run, settles
every campaign still 'In Process' past its end date: it completes the campaign and collects
its investments when the total reached the goal, and otherwise fails it
and returns the pledged investments. Admins approve campaigns and schedule
them for a weekly "Pulse" on the coming Sunday.

This project models that bookkeeping and proves properties of it:

- `wrappers.dfy`: `Option` and `Result`.
- `seqs.dfy`: order-keeping `Filter` and first-match `IndexOf` over sequences, with their lemmas.
- `models.dfy` (module `Models`): the tables as datatypes, the defaults of a new row,
  `total_invested` and `progress_percentage`, and the database as a class `Store`
  with one sequence per table. Its invariant `Valid` is the set of foreign keys.
- `forms.dfy` (module `Forms`): the pledge window of `InvestmentForm.clean_amount`.
- `settlement.dfy` (module `Settlement`): the management command `update_campaign_statuses`.
  The method `Handle` runs the command's loop over the store. It is proved equal to
  the pure fold `Run`, and the lemmas about `Run` state what a run does.
- `views.dfy` (module `Views`): the request handlers that read or change the bookkeeping.
- `admin.dfy` (module `Admin`): the two admin actions and the weekday arithmetic.
- `lifecycle.dfy` (module `Lifecycle`): properties that connect the operations.

Modelling choices:

- A date is a proleptic Gregorian day number. Day 1 is 0001-01-01, a Monday, as in
  Python's `date.toordinal()`. So `date.weekday()` is `(d + 6) % 7`.
- The current day, the current user, the submitted form data and the payment
  provider's answer are parameters.
- Table order is sequence order. Primary keys are naturals. Free text (names,
  descriptions, message texts) is left out. A notification records its kind instead.

Behaviour of the code worth noting:

- A new campaign starts 'In Process'; no status marks it as waiting for approval.
- The `approve_campaigns` action sets the status to 'Pending Pulse'. Only 'In Process'
  campaigns are listed publicly and only they are settled. So a campaign approved by that
  action is neither listed nor settled, and neither is one in the Pulse
  (`Lifecycle.ApprovedCampaignsStayUnlisted`, `Lifecycle.PulsedCampaignsAreNeverSettled`).
- The Pulse action does not check approval or status.
- A pledge is not capped by the remaining goal. There is no exact closing pledge.
  Reaching the goal does not complete a campaign at once: a run of the settlement command does.
- `total_invested` sums every investment of the campaign, Returned ones included.
- On success the run marks every investment of the campaign Collected and notifies
  each investor, whatever the investment's status. On failure only Pledged ones are returned.
- `add_investment` does not check the campaign's status or approval.
- A paid checkout records the amount carried back in the success URL. That amount is not re-checked
  against the pledge window. An amount outside the 32-bit `integer` column of `Investment.amount`
  (PostgreSQL, settings.py:54) makes the insert fail; the handler's catch-all swallows the error,
  so nothing is recorded (`Views.RecordPayment`).
- Deleting a company is refused when some campaign's total is positive, not merely
  when an investment exists. The two agree when amounts are positive (`Views.DeleteGuardMeansInvestments`).
- A run of the settlement command has no per-campaign error handling.

In `admin.py`, `add_to_next_pulse` calls `timezone.now()` on the `timezone` class of
the standard `datetime` module, which has no `now`. It also updates a `reveal_date`
field that `Funding` does not declare. The model takes the evident intent: the day is
a parameter, and `Funding` carries an optional `pulseDate`. Apart from that action, only the
admin's change list (`list_display`, admin.py:19) names the field, to show it.

`views.py` imports `FundingFilterForm` and `MilestoneForm` (views.py:15-18), which `forms.py`
does not define; the model takes the views as written and leaves those forms out. `urls.py`
routes no URL to `InvestmentUpdate` or `InvestmentDelete`, so as the code stands no request
reaches them; they are modelled as the views define them.

## Model

| member | source | states |
|---|---|---|
| Models.NewFunding | hayyakom/main_app/models.py:43-51 | a new campaign is 'In Process', unapproved, in category Other, with no Pulse date |
| Models.NewInvestment | hayyakom/main_app/models.py:67-71 | a new investment is Pledged, with the given investor, campaign and amount |
| Models.NewNotification | hayyakom/main_app/models.py:84-89 | a new notification is unread and linked to its campaign |
| Models.OwnerOf | hayyakom/main_app/models.py:35-36 | the owner returned is the owner of a company with that id |
| Models.FundingOf | hayyakom/main_app/views.py:175 | a campaign is found exactly when one with the id exists, and it has that id |
| Models.InvestmentsOf | hayyakom/main_app/models.py:59 | a campaign's investment set holds exactly the investments pointing at it |
| Models.TotalInvestedIsSumOfOwn | hayyakom/main_app/models.py:58-60 | the total is the sum of the amounts of the campaign's own investments |
| Models.TotalInvestedWithoutInvestments | hayyakom/main_app/models.py:60 | a campaign without investments totals 0 |
| Models.TotalInvestedAppend | hayyakom/main_app/models.py:58-60 | adding an investment raises its campaign's total by its amount and no other total |
| Models.TotalInvestedIgnoresStatus | hayyakom/main_app/models.py:58-60 | the total does not depend on investment statuses, so Returned investments still count |
| Models.TotalInvestedPositive | hayyakom/main_app/models.py:58-60 | with positive amounts the total is non-negative, and positive exactly when the campaign has an investment |
| Models.ProgressPercentage | hayyakom/main_app/models.py:62-65 | 0 for a non-positive goal; otherwise percentage times goal equals total times 100, so at least 100 once the goal is reached |
| Models.SameKeysKeepReferences | hayyakom/main_app/models.py:44-89 | rewriting campaigns without changing ids or companies keeps every foreign key valid, from investments, milestones and notifications included |
| Models.Store.constructor | hayyakom/main_app/models.py:35-104 | an empty database satisfies the foreign-key invariant |
| Forms.CleanAmount | hayyakom/main_app/forms.py:27-33 | an amount is accepted unchanged exactly when it is in [2000, 5000]; below the window gives the minimum error, above it the maximum error |
| Settlement.RunKeepsAmounts | hayyakom/main_app/management/commands/update_campaign_statuses.py:17-45 | a run changes no campaign or amount of an investment, so every campaign's total is unchanged |
| Settlement.RunFundings | hayyakom/main_app/management/commands/update_campaign_statuses.py:10-34 | each 'In Process' campaign past its end date becomes Completed if its total reaches the goal, else Failed; every other campaign is untouched |
| Settlement.RunLeavesNothingExpired | hayyakom/main_app/management/commands/update_campaign_statuses.py:10 | after a run no campaign is 'In Process' past its end date |
| Settlement.RunWithNothingExpired | hayyakom/main_app/management/commands/update_campaign_statuses.py:10-17 | a run with nothing expired changes nothing, notifies nobody and counts zero |
| Settlement.RunIsIdempotent | hayyakom/main_app/management/commands/update_campaign_statuses.py:8-47 | a second run on the same day changes nothing |
| Settlement.RunCounts | hayyakom/main_app/management/commands/update_campaign_statuses.py:14-34 | the completed count is the number of expired campaigns that reached their goal, the failed count those that did not, and together they count the expired campaigns |
| Settlement.RunInvestments | hayyakom/main_app/management/commands/update_campaign_statuses.py:22-39 | with unique campaign ids, an investment of a succeeded campaign becomes Collected; of a failed one, Pledged becomes Returned and other statuses stay; all other investments are untouched |
| Settlement.RunNoticeCount | hayyakom/main_app/management/commands/update_campaign_statuses.py:22-45 | with unique campaign ids, one notice is sent per investment the run rewrites |
| Settlement.SettlementNotice | hayyakom/main_app/management/commands/update_campaign_statuses.py:26-45 | the notice about a rewritten investment goes to its investor, is unread, names its campaign, and is FundsCollected on success and FundsReturned on failure |
| Settlement.RunNotifiesRewritten | hayyakom/main_app/management/commands/update_campaign_statuses.py:22-45 | with unique campaign ids, every investment the run rewrites sends its own investor the notice about its campaign, of the kind matching the outcome |
| Settlement.RunNoticesFromRewrites | hayyakom/main_app/management/commands/update_campaign_statuses.py:22-45 | with unique campaign ids, every notice of a run is the notice of some investment the run rewrites, about that investment's settled campaign |
| Settlement.RunNoticesLinked | hayyakom/main_app/management/commands/update_campaign_statuses.py:26-45 | every notice a run sends is linked to one of the campaigns it ran over |
| Settlement.RunKeepsReferences | hayyakom/main_app/management/commands/update_campaign_statuses.py:17-47 | a run keeps every foreign key valid, including those of the notices it adds |
| Settlement.RewriteInvestments | hayyakom/main_app/management/commands/update_campaign_statuses.py:22-45 | the inner loop rewrites exactly the selected investments and appends one notice per rewritten investment, in order |
| Settlement.CloseCampaign | hayyakom/main_app/management/commands/update_campaign_statuses.py:17-47 | settling one campaign sets its status and rewrites and notifies its investments |
| Settlement.SettleNext | hayyakom/main_app/management/commands/update_campaign_statuses.py:17-47 | one iteration of the outer loop performs one step of the fold and reports whether it completed or failed the campaign |
| Settlement.Handle | hayyakom/main_app/management/commands/update_campaign_statuses.py:8-51 | the command leaves exactly the state `Run` describes, returns its two counts and keeps the foreign keys |
| Views.PublicListing | hayyakom/main_app/views.py:29 | the public listing holds exactly the approved campaigns that are 'In Process' |
| Views.UserCompany | hayyakom/main_app/views.py:66 | the company found is owned by the user, and none is found exactly when the user owns no company |
| Views.FundingList | hayyakom/main_app/views.py:58-79 | `get_queryset`: for a user without a profile or an investor the queryset is the public listing; for an owner it is all of their company's campaigns, or nothing without a company |
| Views.FundingDetail | hayyakom/main_app/views.py:91-95 | a campaign is shown exactly when it exists and is approved or the requester owns its company |
| Views.AddInvestment | hayyakom/main_app/views.py:173-207 | 404 exactly for an unknown campaign; refused exactly when the user already invested; checkout exactly for a submitted amount in the window, carrying that amount |
| Views.NextInvestmentId | hayyakom/main_app/views.py:219 | the new primary key is above every key in use |
| Views.RecordPayment | hayyakom/main_app/views.py:209-245 | an investment is recorded exactly when the session is paid, the user has none in the campaign, the campaign exists and the amount parses and fits the 32-bit column; otherwise nothing is added |
| Views.RecordPaymentRecords | hayyakom/main_app/views.py:219-236 | a recording adds one fresh Pledged investment of the user and amount, then notifies the owner and then the investor |
| Views.RecordPaymentIdempotent | hayyakom/main_app/views.py:217 | the same callback a second time adds nothing and reports the investment as already recorded |
| Views.RecordPaymentTotals | hayyakom/main_app/views.py:219-223 | recording raises the campaign's total by exactly the amount and no other total |
| Views.RecordPaymentKeepsOnePerInvestor | hayyakom/main_app/views.py:217-223 | recording keeps at most one investment per investor and campaign |
| Views.CheckoutThenRecord | hayyakom/main_app/views.py:177-223 | an amount sent to checkout is, once paid, recorded unchanged, and the user is then refused a second pledge |
| Views.InvestmentSuccess | hayyakom/main_app/views.py:209-245 | the handler adds exactly what `RecordPayment` describes and keeps the foreign keys |
| Views.InvestmentGuard | hayyakom/main_app/views.py:256-264 | passes exactly the user's own investment whose campaign is 'In Process'; 404 exactly when the user has no investment with that id |
| Views.InvestmentUpdate | hayyakom/main_app/views.py:250-264 | on a POST, behind the guard, an amount in the window replaces the investment's amount; otherwise nothing changes |
| Views.InvestmentDelete | hayyakom/main_app/views.py:266-279 | on a POST, behind the guard, exactly that investment is removed |
| Views.HasInvestedFunding | hayyakom/main_app/views.py:160-163 | true exactly when some campaign of the company has a positive total |
| Views.CascadeKeepsReferences | hayyakom/main_app/views.py:166 | deleting a company leaves exactly the other companies, the campaigns of other companies, and the investments, milestones and notifications not linked to a removed campaign, and keeps every foreign key, notifications' included |
| Views.CompanyDelete | hayyakom/main_app/views.py:150-166 | refused with nothing changed when a campaign of the user's company has a positive total; otherwise the cascade runs |
| Views.DeleteGuardMeansInvestments | hayyakom/main_app/views.py:160-161 | with positive amounts the deletion guard fires exactly when a campaign of the company has an investment |
| Views.MilestoneNotices | hayyakom/main_app/views.py:368-374 | one unread milestone notice per investment of the campaign, each to an investor of the campaign |
| Views.MilestoneNoticesEveryInvestment | hayyakom/main_app/views.py:368-374 | the notice at each position goes to the investor of the campaign's investment at that position, so every investment of the campaign notifies its own investor |
| Views.NotifyMilestoneInvestors | hayyakom/main_app/views.py:368-374 | the loop appends exactly the milestone notices, in table order |
| Views.MarkMilestoneComplete | hayyakom/main_app/views.py:359-376 | 404 for an unknown milestone; refused for anyone but the company's owner; on a POST the milestone is complete and each investor of the campaign is notified |
| Views.MarkRead | hayyakom/main_app/views.py:336 | the user's notifications become read and no other notification changes |
| Views.MarkReadEffect | hayyakom/main_app/views.py:336 | after opening the list the user has no unread notification, no one else's changes, and the user keeps as many as before |
| Views.Reverse | hayyakom/main_app/views.py:335 | newest first is the table order reversed |
| Views.NotificationList | hayyakom/main_app/views.py:334-337 | marks the user's notifications read and shows all of them, newest first, keeping the foreign keys |
| Admin.Weekday | hayyakom/main_app/admin.py:38 | a weekday is between 0 (Monday) and 6 (Sunday) |
| Admin.WeekdayShift | hayyakom/main_app/admin.py:38 | within one Monday-to-Sunday week the weekday grows one per day |
| Admin.DaysUntilSunday | hayyakom/main_app/admin.py:38 | between 0 and 6 days; that many days on it is Sunday, and no earlier day is |
| Admin.NextSunday | hayyakom/main_app/admin.py:39 | the first Sunday on or after today, at most six days ahead; today exactly when today is a Sunday |
| Admin.Selection | hayyakom/main_app/admin.py:24 | the admin's queryset holds exactly the selected campaigns |
| Admin.ApproveAll | hayyakom/main_app/admin.py:24-27 | approval changes no campaign's id or company |
| Admin.ApprovalEffect | hayyakom/main_app/admin.py:23-32 | each selected campaign becomes approved and 'Pending Pulse' with every other field as it was, others are untouched; the notices are exactly one unread approval notice per selected campaign, position by position, to its company's owner, so every selected campaign gets its notice |
| Admin.ApprovalNoticesAppend | hayyakom/main_app/admin.py:24-32 | one more campaign in the table adds at most its own approval notice |
| Admin.ApproveOne | hayyakom/main_app/admin.py:24-32 | one iteration approves and notifies for the campaign at hand if it is selected |
| Admin.ApproveCampaigns | hayyakom/main_app/admin.py:23-32 | the action leaves the approved table, appends the approval notices, and keeps the foreign keys |
| Admin.PulseAll | hayyakom/main_app/admin.py:41-44 | the Pulse update changes no campaign's id or company |
| Admin.AddToNextPulse | hayyakom/main_app/admin.py:36-46 | the selected campaigns go 'In Pulse' with the next Sunday as their date, and the count is the number of selected campaigns |
| Admin.PulseDateIsNextSunday | hayyakom/main_app/admin.py:37-44 | every selected campaign is 'In Pulse' with a date that is the first Sunday on or after today, with every other field, approval included, as it was; the rest are untouched |
| Lifecycle.ApprovedCampaignsStayUnlisted | hayyakom/main_app/admin.py:23-27 | a campaign approved by the `approve_campaigns` action is neither publicly listed nor changed by a settlement run |
| Lifecycle.PulsedCampaignsAreNeverSettled | hayyakom/main_app/admin.py:41-44 | a campaign in the Pulse is neither publicly listed nor changed by a settlement run |
| Lifecycle.SettledInvestmentsAreLocked | hayyakom/main_app/views.py:259-264 | after a run the edit and withdraw guard passes no investment of a campaign the run settled |

## Left out

- Stripe: creating the checkout session and retrieving it are replaced by the payment status given as a parameter; a failure to create the session is not modelled.
- The conversion of the pledge to US cents and the `BHD_TO_USD_RATE` constant, which only feed the payment provider.
- Models.ProgressPercentage: computed in exact reals, not Python floats, so float rounding is not modelled.
- Views.PublicListing and Views.FundingList: the text search, the category filter and the `-end_date` ordering are not modelled; the contracts speak of membership only.
- Views.AddInvestment: a POST without an amount is treated like a GET, since form rendering is not modelled.
- Views.RecordPayment: the `amount` query parameter is modelled as already parsed, with `None` for text that is not an integer.
- Anonymous users in `investment_success` and in the investment guards, whose queries fail before any change.
- Page rendering, redirects, flash messages, login checks and message texts.
- The `Transaction` model: no core code creates one, so deleting an investment cascades into nothing modelled.
- `Profile`, sign-up, profile editing, company creation and editing, campaign creation and editing, and `manage_roadmap`: they only create or edit rows through forms.
- Settings and URL routing.
- Concurrency and database transactions: every handler runs alone and completes.
- The clock: `timezone.now().date()` becomes the `today` parameter.
- `Funding.pulseDate`: stands in for the `reveal_date` that `add_to_next_pulse` writes but `Funding` does not declare.
- Milestone ordering by target date, which only affects display.
- Views.FundingList: models `get_queryset` only. The page's `get_context_data` reads the user's profile role without a guard (views.py:83), so a logged-in user without a profile gets an error page instead of the listing; page rendering is not modelled.
- Settlement.Handle: neither the expired campaigns nor a campaign's investments are fetched in a declared order (no `order_by`, no `Meta.ordering`), so the database's order is modelled as table order; only the order of the settlement notices depends on it.
- Views.InvestmentUpdate and Views.InvestmentDelete: only the POST is modelled; a GET shows the form or the confirmation page and changes nothing.
- The admin change form for campaigns: `FundingAdmin` declares no `fields` or `readonly_fields`, so the form can edit any field, `is_approved` and `status` included; not modelled. A campaign approved there stays 'In Process' and is then listed and settled.
- Admin.ApproveCampaigns: the admin's queryset order (Django's change list, descending primary key by default) is modelled as table order; only the order of the approval notices depends on it.

/**
 * The request handlers of the app that read or change the bookkeeping:
 * listing and detail visibility, pledging and recording a paid
 * investment, editing or withdrawing an investment, deleting a company,
 * completing a milestone and reading notifications. The current user,
 * the submitted form data and the payment provider's answer are
 * parameters.
 */
module Views {
  import opened Wrappers
  import opened Seqs
  import opened Models
  import opened Forms

  // ---------------------------------------------------------------------
  // Listings and detail

  /** Shown to the public and to investors: approved campaigns still 'In Process'. */
  predicate Listed(f: Funding)
  {
    f.status == InProcess && f.isApproved
  }

  /** `home` (before its text search and category filter): the listed campaigns. */
  function PublicListing(fundings: seq<Funding>): (r: seq<Funding>)
    ensures forall f :: f in r <==> f in fundings && f.status == InProcess && f.isApproved
  {
    Filter(fundings, Listed)
  }

  /** `request.user.company`: the company the user owns, if any. */
  function UserCompany(companies: seq<Company>, user: UserId): (r: Option<Company>)
    ensures r.Some? ==> r.value in companies && r.value.owner == user
    ensures r.None? <==> forall c :: c in companies ==> c.owner != user
  {
    match IndexOf(companies, (c: Company) => c.owner == user)
    case None => None
    case Some(k) => Some(companies[k])
  }

  /**
   * `FundingList.get_queryset` only (before search and ordering): for a
   * user without a profile, or an investor, the queryset is the listed
   * campaigns; for an owner it is every campaign of their own company,
   * approved or not, and nothing when they have no company. The page's
   * `get_context_data` is not part of this function.
   */
  function FundingList(fundings: seq<Funding>, companies: seq<Company>, user: UserId, role: Option<Role>): (r: seq<Funding>)
    ensures role != Some(Owner) ==> forall f :: f in r <==> f in fundings && f.status == InProcess && f.isApproved
    ensures role == Some(Owner) && UserCompany(companies, user).None? ==> r == []
    ensures role == Some(Owner) && UserCompany(companies, user).Some? ==>
      forall f :: f in r <==> f in fundings && f.company == UserCompany(companies, user).value.id
  {
    match role
    case None => PublicListing(fundings)
    case Some(Investor) => PublicListing(fundings)
    case Some(Owner) =>
      match UserCompany(companies, user)
      case None => []
      case Some(c) => Filter(fundings, (f: Funding) => f.company == c.id)
  }

  /**
   * `FundingDetail.get_object`: 404 for an unknown campaign, and for an
   * unapproved one unless the requester (None when anonymous) owns its
   * company.
   */
  function FundingDetail(fundings: seq<Funding>, companies: seq<Company>, funding: FundingId,
                         requester: Option<UserId>): (r: Option<Funding>)
    requires forall f :: f in fundings ==> f.company in CompanyIds(companies)
    ensures funding !in FundingIds(fundings) ==> r == None
    ensures r.Some? ==> r.value in fundings && r.value.id == funding
    ensures r.Some? ==> r.value.isApproved || requester == Some(OwnerOf(companies, r.value.company))
    ensures funding in FundingIds(fundings) ==>
      var f := FundingOf(fundings, funding).value;
      (r.Some? <==> f.isApproved || requester == Some(OwnerOf(companies, f.company)))
  {
    match FundingOf(fundings, funding)
    case None => None
    case Some(f) =>
      if !f.isApproved && requester != Some(OwnerOf(companies, f.company)) then None
      else Some(f)
  }

  // ---------------------------------------------------------------------
  // Pledging and recording an investment

  datatype AddOutcome =
    | FundingNotFound          // 404
    | AlreadyInvested          // refused, back to the detail page
    | ShowForm                 // a GET: the empty pledge form
    | InvalidAmount(error: AmountError)
    | ToCheckout(amount: int)  // hand the amount to the payment provider

  /**
   * `add_investment`: refuses a user who already holds an investment in
   * the campaign; otherwise a submitted amount inside the pledge window
   * goes to checkout. It never creates an investment itself.
   */
  function AddInvestment(fundings: seq<Funding>, investments: seq<Investment>, user: UserId,
                         funding: FundingId, submitted: Option<int>): (r: AddOutcome)
    ensures r == FundingNotFound <==> funding !in FundingIds(fundings)
    ensures r == AlreadyInvested <==> funding in FundingIds(fundings) && HasInvested(investments, user, funding)
    ensures r == ShowForm <==> funding in FundingIds(fundings) && !HasInvested(investments, user, funding) && submitted.None?
    ensures r.ToCheckout? <==>
      && funding in FundingIds(fundings) && !HasInvested(investments, user, funding)
      && submitted.Some? && MinimumPledge <= submitted.value <= MaximumPledge
    ensures r.ToCheckout? ==> submitted == Some(r.amount)
    ensures r.InvalidAmount? ==> submitted.Some? && CleanAmount(submitted.value) == Err(r.error)
  {
    if funding !in FundingIds(fundings) then FundingNotFound
    else if HasInvested(investments, user, funding) then AlreadyInvested
    else match submitted
      case None => ShowForm
      case Some(amount) =>
        match CleanAmount(amount)
        case Err(e) => InvalidAmount(e)
        case Ok(a) => ToCheckout(a)
  }

  /** What the payment provider reports for the checkout session. */
  datatype PaymentStatus = Paid | Unpaid | LookupFailed

  datatype SuccessOutcome = Recorded | AlreadyRecorded | NotPaid | PaymentFailed

  /** The rows `investment_success` adds. */
  datatype Recording = Recording(outcome: SuccessOutcome, added: seq<Investment>, notices: seq<Notification>)

  /** A primary key above every one in use. */
  function NextInvestmentId(investments: seq<Investment>): (id: InvestmentId)
    ensures forall i :: i in investments ==> i.id < id
  {
    if investments == [] then 1
    else
      var rest := NextInvestmentId(investments[1..]);
      assert forall i :: i in investments ==> i == investments[0] || i in investments[1..];
      if investments[0].id < rest then rest else investments[0].id + 1
  }

  /**
   * `investment_success`: on a paid session, and only if the user has no
   * investment in the campaign yet, records a Pledged investment of the
   * amount carried back from checkout and notifies the owner and the
   * investor. An unknown campaign, an amount that is not a number, an
   * amount the 32-bit `amount` column cannot hold (the insert fails and
   * the handler's catch-all swallows the error) or a failed lookup at the
   * provider add nothing.
   */
  function RecordPayment(companies: seq<Company>, fundings: seq<Funding>, investments: seq<Investment>,
                         user: UserId, funding: FundingId, amount: Option<int>, payment: PaymentStatus): (r: Recording)
    requires forall f :: f in fundings ==> f.company in CompanyIds(companies)
    ensures r.outcome == Recorded <==>
      && payment == Paid && !HasInvested(investments, user, funding) && funding in FundingIds(fundings)
      && amount.Some? && FitsIntegerField(amount.value)
    ensures r.outcome == AlreadyRecorded <==> payment == Paid && HasInvested(investments, user, funding)
    ensures r.outcome != Recorded ==> r.added == [] && r.notices == []
  {
    match payment
    case LookupFailed => Recording(PaymentFailed, [], [])
    case Unpaid => Recording(NotPaid, [], [])
    case Paid =>
      if HasInvested(investments, user, funding) then Recording(AlreadyRecorded, [], [])
      else match FundingOf(fundings, funding)
      case None => Recording(PaymentFailed, [], [])
      case Some(f) =>
        match amount
        case None => Recording(PaymentFailed, [], [])
        case Some(a) =>
          if !FitsIntegerField(a) then Recording(PaymentFailed, [], [])
          else Recording(Recorded,
                         [NewInvestment(NextInvestmentId(investments), user, funding, a)],
                         [NewNotification(OwnerOf(companies, f.company), InvestmentReceived, funding),
                          NewNotification(user, InvestmentConfirmed, funding)])
  }

  /**
   * A recorded payment adds exactly one Pledged investment of the user in
   * the campaign, under a fresh id, and exactly two notifications linked
   * to the campaign: first to its company's owner, then to the investor.
   */
  lemma RecordPaymentRecords(companies: seq<Company>, fundings: seq<Funding>, investments: seq<Investment>,
                             user: UserId, funding: FundingId, amount: Option<int>, payment: PaymentStatus)
    requires forall f :: f in fundings ==> f.company in CompanyIds(companies)
    requires RecordPayment(companies, fundings, investments, user, funding, amount, payment).outcome == Recorded
    ensures var r := RecordPayment(companies, fundings, investments, user, funding, amount, payment);
      && |r.added| == 1
      && r.added[0].investor == user && r.added[0].funding == funding
      && r.added[0].amount == amount.value && r.added[0].status == Pledged
      && (forall i :: i in investments ==> i.id != r.added[0].id)
      && |r.notices| == 2
      && (exists f :: f in fundings && f.id == funding && r.notices[0].user == OwnerOf(companies, f.company))
      && r.notices[0].kind == InvestmentReceived
      && r.notices[1].user == user && r.notices[1].kind == InvestmentConfirmed
      && r.notices[0].relatedFunding == r.notices[1].relatedFunding == Some(funding)
      && !r.notices[0].isRead && !r.notices[1].isRead
  {
  }

  /**
   * The callback is idempotent: once a payment is recorded, the same
   * callback again (paid or not) adds no investment and no notification.
   */
  lemma RecordPaymentIdempotent(companies: seq<Company>, fundings: seq<Funding>, investments: seq<Investment>,
                                user: UserId, funding: FundingId, amount: Option<int>, payment: PaymentStatus)
    requires forall f :: f in fundings ==> f.company in CompanyIds(companies)
    ensures var r := RecordPayment(companies, fundings, investments, user, funding, amount, payment);
      var again := RecordPayment(companies, fundings, investments + r.added, user, funding, amount, payment);
      && again.added == [] && again.notices == []
      && (r.outcome == Recorded ==> again.outcome == AlreadyRecorded)
  {
  }

  /**
   * Recording raises the campaign's total by exactly the recorded amount
   * and leaves every other campaign's total unchanged.
   */
  lemma RecordPaymentTotals(companies: seq<Company>, fundings: seq<Funding>, investments: seq<Investment>,
                            user: UserId, funding: FundingId, amount: Option<int>, payment: PaymentStatus, other: FundingId)
    requires forall f :: f in fundings ==> f.company in CompanyIds(companies)
    ensures var r := RecordPayment(companies, fundings, investments, user, funding, amount, payment);
      TotalInvested(investments + r.added, other)
      == TotalInvested(investments, other) + (if r.outcome == Recorded && other == funding then amount.value else 0)
  {
    var r := RecordPayment(companies, fundings, investments, user, funding, amount, payment);
    if r.outcome == Recorded {
      TotalInvestedAppend(investments, r.added[0], other);
    } else {
      assert investments + r.added == investments;
    }
  }

  /** At most one investment per (investor, campaign). */
  predicate OnePerInvestor(investments: seq<Investment>)
  {
    forall j, k :: 0 <= j < k < |investments| ==>
      investments[j].investor != investments[k].investor || investments[j].funding != investments[k].funding
  }

  /** Recording a payment keeps at most one investment per (investor, campaign). */
  lemma RecordPaymentKeepsOnePerInvestor(companies: seq<Company>, fundings: seq<Funding>, investments: seq<Investment>,
                                         user: UserId, funding: FundingId, amount: Option<int>, payment: PaymentStatus)
    requires forall f :: f in fundings ==> f.company in CompanyIds(companies)
    requires OnePerInvestor(investments)
    ensures OnePerInvestor(investments + RecordPayment(companies, fundings, investments, user, funding, amount, payment).added)
  {
  }

  /**
   * The two halves of a pledge fit together: an amount `add_investment`
   * sends to checkout, once paid, is recorded as it was sent; afterwards
   * `add_investment` refuses the same user for the same campaign.
   */
  lemma CheckoutThenRecord(companies: seq<Company>, fundings: seq<Funding>, investments: seq<Investment>,
                           user: UserId, funding: FundingId, submitted: Option<int>)
    requires forall f :: f in fundings ==> f.company in CompanyIds(companies)
    requires AddInvestment(fundings, investments, user, funding, submitted).ToCheckout?
    ensures var a := AddInvestment(fundings, investments, user, funding, submitted).amount;
      var r := RecordPayment(companies, fundings, investments, user, funding, Some(a), Paid);
      && r.outcome == Recorded
      && r.added[0].amount == a && MinimumPledge <= a <= MaximumPledge
      && AddInvestment(fundings, investments + r.added, user, funding, submitted) == AlreadyInvested
  {
  }

  /** `investment_success` against the store. */
  method InvestmentSuccess(db: Store, user: UserId, funding: FundingId, amount: Option<int>, payment: PaymentStatus)
    returns (outcome: SuccessOutcome)
    requires db.Valid()
    modifies db
    ensures db.Valid()
    ensures var r := RecordPayment(old(db.companies), old(db.fundings), old(db.investments), user, funding, amount, payment);
      && outcome == r.outcome
      && db.investments == old(db.investments) + r.added
      && db.notifications == old(db.notifications) + r.notices
    ensures db.companies == old(db.companies) && db.fundings == old(db.fundings)
    ensures db.milestones == old(db.milestones)
  {
    if payment == LookupFailed {
      return PaymentFailed;
    }
    if payment != Paid {
      return NotPaid;
    }
    if HasInvested(db.investments, user, funding) {
      return AlreadyRecorded;
    }
    var found := FundingOf(db.fundings, funding);
    if found.None? || amount.None? || !FitsIntegerField(amount.value) {
      return PaymentFailed;
    }
    var f := found.value;
    var investment := NewInvestment(NextInvestmentId(db.investments), user, funding, amount.value);
    db.investments := db.investments + [investment];
    var owner := OwnerOf(db.companies, f.company);
    db.notifications := db.notifications + [NewNotification(owner, InvestmentReceived, funding)];
    db.notifications := db.notifications + [NewNotification(user, InvestmentConfirmed, funding)];
    outcome := Recorded;
  }

  // ---------------------------------------------------------------------
  // Editing and withdrawing an investment

  datatype GuardError = InvestmentNotFound | CampaignNotActive

  /**
   * The `dispatch` guard of `InvestmentUpdate` and `InvestmentDelete`:
   * the investment must be the user's own (404 otherwise) and its
   * campaign still 'In Process'. Gives the investment's position.
   */
  function InvestmentGuard(fundings: seq<Funding>, investments: seq<Investment>, user: UserId, id: InvestmentId)
    : (r: Result<nat, GuardError>)
    requires forall i :: i in investments ==> i.funding in FundingIds(fundings)
    ensures r.Ok? ==> r.value < |investments| && investments[r.value].id == id && investments[r.value].investor == user
    ensures r.Ok? ==> FundingOf(fundings, investments[r.value].funding).value.status == InProcess
    ensures r == Err(InvestmentNotFound) <==> forall i :: i in investments ==> i.id != id || i.investor != user
    ensures r == Err(CampaignNotActive) ==>
      exists i :: i in investments && i.id == id && i.investor == user
                  && FundingOf(fundings, i.funding).value.status != InProcess
  {
    match IndexOf(investments, (i: Investment) => i.id == id && i.investor == user)
    case None => Err(InvestmentNotFound)
    case Some(k) =>
      assert investments[k] in investments;
      if FundingOf(fundings, investments[k].funding).value.status != InProcess then Err(CampaignNotActive)
      else Ok(k)
  }

  datatype EditOutcome = Refused(error: GuardError) | Rejected(amountError: AmountError) | Done

  /**
   * `InvestmentUpdate` on a POST: behind the guard, a new amount inside
   * the pledge window replaces the old one; nothing else about the
   * investment changes. A GET, which only shows the form, is not modelled.
   */
  method InvestmentUpdate(db: Store, user: UserId, id: InvestmentId, amount: int) returns (outcome: EditOutcome)
    requires db.Valid()
    modifies db
    ensures db.Valid()
    ensures var g := InvestmentGuard(old(db.fundings), old(db.investments), user, id);
      && (g.Err? ==> outcome == Refused(g.error) && db.investments == old(db.investments))
      && (g.Ok? && CleanAmount(amount).Err? ==>
            outcome == Rejected(CleanAmount(amount).error) && db.investments == old(db.investments))
      && (g.Ok? && CleanAmount(amount).Ok? ==>
            outcome == Done
            && db.investments == old(db.investments)[g.value := old(db.investments)[g.value].(amount := amount)])
    ensures db.companies == old(db.companies) && db.fundings == old(db.fundings)
    ensures db.milestones == old(db.milestones) && db.notifications == old(db.notifications)
  {
    var guard := InvestmentGuard(db.fundings, db.investments, user, id);
    if guard.Err? {
      return Refused(guard.error);
    }
    var cleaned := CleanAmount(amount);
    if cleaned.Err? {
      return Rejected(cleaned.error);
    }
    var k := guard.value;
    db.investments := db.investments[k := db.investments[k].(amount := cleaned.value)];
    assert forall i :: i in db.investments ==> i in old(db.investments) || i.funding == old(db.investments)[k].funding;
    outcome := Done;
  }

  /**
   * `InvestmentDelete` on a POST: behind the guard, the investment is
   * removed. A GET, which only shows the confirmation page, is not modelled.
   */
  method InvestmentDelete(db: Store, user: UserId, id: InvestmentId) returns (outcome: EditOutcome)
    requires db.Valid()
    modifies db
    ensures db.Valid()
    ensures var g := InvestmentGuard(old(db.fundings), old(db.investments), user, id);
      && (g.Err? ==> outcome == Refused(g.error) && db.investments == old(db.investments))
      && (g.Ok? ==> outcome == Done
                    && db.investments == old(db.investments)[..g.value] + old(db.investments)[g.value + 1..])
    ensures db.companies == old(db.companies) && db.fundings == old(db.fundings)
    ensures db.milestones == old(db.milestones) && db.notifications == old(db.notifications)
  {
    var guard := InvestmentGuard(db.fundings, db.investments, user, id);
    if guard.Err? {
      return Refused(guard.error);
    }
    var k := guard.value;
    ghost var before := db.investments;
    db.investments := db.investments[..k] + db.investments[k + 1..];
    assert forall i :: i in db.investments ==> i in before;
    outcome := Done;
  }

  // ---------------------------------------------------------------------
  // Deleting a company

  /**
   * The loop in `CompanyDelete.post`: whether some campaign of the company
   * has a positive total.
   */
  method HasInvestedFunding(fundings: seq<Funding>, investments: seq<Investment>, company: CompanyId)
    returns (found: bool)
    ensures found <==> exists f :: f in fundings && f.company == company && TotalInvested(investments, f.id) > 0
  {
    var k := 0;
    while k < |fundings|
      invariant 0 <= k <= |fundings|
      invariant forall j :: 0 <= j < k && fundings[j].company == company ==> TotalInvested(investments, fundings[j].id) <= 0
    {
      if fundings[k].company == company && TotalInvested(investments, fundings[k].id) > 0 {
        return true;
      }
      k := k + 1;
    }
    return false;
  }

  /** The ids of the company's campaigns, which deleting it removes. */
  function CompanyFundingIds(fundings: seq<Funding>, company: CompanyId): set<FundingId>
  {
    set f | f in fundings && f.company == company :: f.id
  }

  /** What deleting a company leaves: every row that refers to it, directly or through its campaigns, goes. */
  datatype Tables = Tables(
    companies: seq<Company>,
    fundings: seq<Funding>,
    investments: seq<Investment>,
    milestones: seq<Milestone>,
    notifications: seq<Notification>)

  function Cascade(t: Tables, company: CompanyId): (r: Tables)
  {
    var gone := CompanyFundingIds(t.fundings, company);
    Tables(Filter(t.companies, (c: Company) => c.id != company),
           Filter(t.fundings, (f: Funding) => f.company != company),
           Filter(t.investments, (i: Investment) => i.funding !in gone),
           Filter(t.milestones, (m: Milestone) => m.funding !in gone),
           Filter(t.notifications, (n: Notification) => n.relatedFunding.None? || n.relatedFunding.value !in gone))
  }

  /**
   * The cascade leaves no row referring to a deleted company or campaign,
   * keeps every other row, and keeps the foreign keys intact.
   */
  lemma CascadeKeepsReferences(t: Tables, company: CompanyId)
    requires ReferencesExist(t.companies, t.fundings, t.investments, t.milestones, t.notifications)
    ensures var r := Cascade(t, company);
      var gone := CompanyFundingIds(t.fundings, company);
      && ReferencesExist(r.companies, r.fundings, r.investments, r.milestones, r.notifications)
      && (forall c :: c in r.companies <==> c in t.companies && c.id != company)
      && (forall f :: f in r.fundings <==> f in t.fundings && f.company != company)
      && (forall i :: i in r.investments <==> i in t.investments && i.funding !in gone)
      && (forall m :: m in r.milestones <==> m in t.milestones && m.funding !in gone)
      && (forall n :: n in r.notifications <==>
            n in t.notifications && (n.relatedFunding.None? || n.relatedFunding.value !in gone))
  {
  }

  datatype CompanyDeleteOutcome = NoCompany | HasActiveInvestments | CompanyDeleted

  /**
   * `CompanyDelete.post`: refused, with nothing deleted, while any
   * campaign of the user's company has a positive total; otherwise the
   * company and everything that refers to it is deleted.
   */
  method CompanyDelete(db: Store, user: UserId) returns (outcome: CompanyDeleteOutcome)
    requires db.Valid()
    modifies db
    ensures db.Valid()
    ensures var c := UserCompany(old(db.companies), user);
      && (outcome == NoCompany <==> c.None?)
      && (outcome == HasActiveInvestments <==>
            c.Some? && exists f :: f in old(db.fundings) && f.company == c.value.id
                                  && TotalInvested(old(db.investments), f.id) > 0)
      && (outcome != CompanyDeleted ==>
            && db.companies == old(db.companies) && db.fundings == old(db.fundings)
            && db.investments == old(db.investments) && db.milestones == old(db.milestones)
            && db.notifications == old(db.notifications))
      && (outcome == CompanyDeleted ==>
            Tables(db.companies, db.fundings, db.investments, db.milestones, db.notifications)
            == Cascade(Tables(old(db.companies), old(db.fundings), old(db.investments),
                              old(db.milestones), old(db.notifications)), c.value.id))
  {
    var c := UserCompany(db.companies, user);
    if c.None? {
      return NoCompany;
    }
    var company := c.value;
    var active := HasInvestedFunding(db.fundings, db.investments, company.id);
    if active {
      return HasActiveInvestments;
    }
    var t := Tables(db.companies, db.fundings, db.investments, db.milestones, db.notifications);
    CascadeKeepsReferences(t, company.id);
    var r := Cascade(t, company.id);
    db.companies, db.fundings, db.investments := r.companies, r.fundings, r.investments;
    db.milestones, db.notifications := r.milestones, r.notifications;
    outcome := CompanyDeleted;
  }

  /**
   * Amounts being positive, the deletion guard refuses exactly when some
   * campaign of the company has an investment at all.
   */
  lemma DeleteGuardMeansInvestments(fundings: seq<Funding>, investments: seq<Investment>, company: CompanyId)
    requires forall i :: i in investments ==> i.amount > 0
    ensures (exists f :: f in fundings && f.company == company && TotalInvested(investments, f.id) > 0)
        <==> (exists f, i :: f in fundings && f.company == company && i in investments && i.funding == f.id)
  {
    forall f | f in fundings {
      TotalInvestedPositive(investments, f.id);
    }
  }

  // ---------------------------------------------------------------------
  // Milestones

  datatype MilestoneOutcome = MilestoneNotFound | PermissionDenied | NotPosted | MarkedComplete

  /** The investors of a campaign told that one of its milestones is complete. */
  function MilestoneNotices(investments: seq<Investment>, funding: FundingId): (r: seq<Notification>)
    ensures |r| == |InvestmentsOf(investments, funding)|
    ensures forall n :: n in r ==>
      && n.kind == MilestoneCompleted && n.relatedFunding == Some(funding) && !n.isRead
      && exists i :: i in investments && i.funding == funding && i.investor == n.user
  {
    var r := NotifyInvestors(InvestmentsOf(investments, funding), MilestoneCompleted, funding);
    assert forall n :: n in r ==> exists k :: 0 <= k < |r| && r[k] == n;
    r
  }

  /**
   * The notices go out investment by investment, in table order, so every
   * investment of the campaign, whatever its status, sends its own
   * investor exactly the notice at its position.
   */
  lemma MilestoneNoticesEveryInvestment(investments: seq<Investment>, funding: FundingId)
    ensures var s := InvestmentsOf(investments, funding);
      forall k :: 0 <= k < |s| ==>
        MilestoneNotices(investments, funding)[k] == NewNotification(s[k].investor, MilestoneCompleted, funding)
    ensures forall i :: i in investments && i.funding == funding ==>
      NewNotification(i.investor, MilestoneCompleted, funding) in MilestoneNotices(investments, funding)
  {
  }

  lemma MilestoneNoticesAppend(investments: seq<Investment>, i: Investment, funding: FundingId)
    ensures MilestoneNotices(investments + [i], funding)
         == MilestoneNotices(investments, funding)
            + if i.funding == funding then [NewNotification(i.investor, MilestoneCompleted, funding)] else []
  {
    FilterAppend(investments, i, (x: Investment) => x.funding == funding);
  }

  /** The loop of `mark_milestone_complete` over the campaign's investments. */
  method NotifyMilestoneInvestors(db: Store, funding: FundingId)
    modifies db
    ensures db.notifications == old(db.notifications) + MilestoneNotices(db.investments, funding)
    ensures db.companies == old(db.companies) && db.fundings == old(db.fundings)
    ensures db.investments == old(db.investments) && db.milestones == old(db.milestones)
  {
    var j := 0;
    while j < |db.investments|
      invariant 0 <= j <= |db.investments|
      invariant db.notifications == old(db.notifications) + MilestoneNotices(db.investments[..j], funding)
      invariant db.companies == old(db.companies) && db.fundings == old(db.fundings)
      invariant db.investments == old(db.investments) && db.milestones == old(db.milestones)
    {
      var investment := db.investments[j];
      MilestoneNoticesAppend(db.investments[..j], investment, funding);
      assert db.investments[..j + 1] == db.investments[..j] + [investment];
      if investment.funding == funding {
        db.notifications := db.notifications + [NewNotification(investment.investor, MilestoneCompleted, funding)];
      }
      j := j + 1;
    }
    assert db.investments[..j] == db.investments;
  }

  /**
   * `mark_milestone_complete`: only the owner of the campaign's company
   * may do it; on a POST the milestone is marked complete and every
   * investment of the campaign, whatever its status, sends its investor
   * one notification.
   */
  method MarkMilestoneComplete(db: Store, user: UserId, milestone: MilestoneId, isPost: bool)
    returns (outcome: MilestoneOutcome)
    requires db.Valid()
    modifies db
    ensures db.Valid()
    ensures var k := IndexOf(old(db.milestones), (m: Milestone) => m.id == milestone);
      && (k.None? ==> outcome == MilestoneNotFound)
      && (k.Some? ==>
            var f := FundingOf(old(db.fundings), old(db.milestones)[k.value].funding).value;
            && (user != OwnerOf(old(db.companies), f.company) ==> outcome == PermissionDenied)
            && (user == OwnerOf(old(db.companies), f.company) && !isPost ==> outcome == NotPosted)
            && (user == OwnerOf(old(db.companies), f.company) && isPost ==>
                  && outcome == MarkedComplete
                  && db.milestones == old(db.milestones)[k.value := old(db.milestones)[k.value].(isComplete := true)]
                  && db.notifications == old(db.notifications) + MilestoneNotices(old(db.investments), f.id)))
    ensures outcome != MarkedComplete ==>
      db.milestones == old(db.milestones) && db.notifications == old(db.notifications)
    ensures db.companies == old(db.companies) && db.fundings == old(db.fundings)
    ensures db.investments == old(db.investments)
  {
    var k := IndexOf(db.milestones, (m: Milestone) => m.id == milestone);
    if k.None? {
      return MilestoneNotFound;
    }
    assert db.milestones[k.value] in db.milestones;
    var f := FundingOf(db.fundings, db.milestones[k.value].funding).value;
    if user != OwnerOf(db.companies, f.company) {
      return PermissionDenied;
    }
    if !isPost {
      return NotPosted;
    }
    ghost var before := db.milestones;
    db.milestones := db.milestones[k.value := db.milestones[k.value].(isComplete := true)];
    assert forall m :: m in db.milestones ==> m in before || m.funding == before[k.value].funding;
    NotifyMilestoneInvestors(db, f.id);
    outcome := MarkedComplete;
  }

  // ---------------------------------------------------------------------
  // Notifications

  /** The bulk update of `NotificationList.get_queryset`: the user's notifications become read. */
  function MarkRead(notifications: seq<Notification>, user: UserId): (r: seq<Notification>)
    ensures |r| == |notifications|
    ensures forall k :: 0 <= k < |r| ==>
      r[k] == if notifications[k].user == user then notifications[k].(isRead := true) else notifications[k]
  {
    seq(|notifications|, k requires 0 <= k < |notifications| =>
      if notifications[k].user == user then notifications[k].(isRead := true) else notifications[k])
  }

  /** Opening the list leaves the user no unread notification, and touches no one else's. */
  lemma MarkReadEffect(notifications: seq<Notification>, user: UserId)
    ensures forall n :: n in MarkRead(notifications, user) && n.user == user ==> n.isRead
    ensures Filter(MarkRead(notifications, user), (n: Notification) => n.user != user)
         == Filter(notifications, (n: Notification) => n.user != user)
    ensures |Filter(MarkRead(notifications, user), (n: Notification) => n.user == user)|
         == |Filter(notifications, (n: Notification) => n.user == user)|
  {
    var r := MarkRead(notifications, user);
    MarkReadOthers(notifications, user);
    FilterCountPointwise(r, (n: Notification) => n.user == user, notifications, (n: Notification) => n.user == user);
  }

  lemma {:induction false} MarkReadOthers(notifications: seq<Notification>, user: UserId)
    ensures Filter(MarkRead(notifications, user), (n: Notification) => n.user != user)
         == Filter(notifications, (n: Notification) => n.user != user)
  {
    if notifications != [] {
      MarkReadOthers(notifications[1..], user);
      assert MarkRead(notifications, user)[1..] == MarkRead(notifications[1..], user);
    }
  }

  function Reverse<T>(s: seq<T>): (r: seq<T>)
    ensures |r| == |s|
    ensures forall k :: 0 <= k < |s| ==> r[k] == s[|s| - 1 - k]
  {
    if s == [] then [] else Reverse(s[1..]) + [s[0]]
  }

  /**
   * `NotificationList`: marks the user's notifications read and shows
   * them, newest first.
   */
  method NotificationList(db: Store, user: UserId) returns (shown: seq<Notification>)
    requires db.Valid()
    modifies db
    ensures db.Valid()
    ensures db.notifications == MarkRead(old(db.notifications), user)
    ensures shown == Reverse(Filter(db.notifications, (n: Notification) => n.user == user))
    ensures db.companies == old(db.companies) && db.fundings == old(db.fundings)
    ensures db.investments == old(db.investments) && db.milestones == old(db.milestones)
  {
    db.notifications := MarkRead(db.notifications, user);
    assert forall n :: n in db.notifications ==> exists k :: 0 <= k < |db.notifications| && db.notifications[k] == n;
    shown := Reverse(Filter(db.notifications, (n: Notification) => n.user == user));
  }
}

/**
 * The tables of the crowdfunding app: companies, funding campaigns,
 * investments, milestones and notifications, the defaults a new row
 * gets, and the aggregate `total_invested` of a campaign.
 */
module Models {
  import opened Wrappers
  import opened Seqs

  type UserId = nat
  type CompanyId = nat
  type FundingId = nat
  type InvestmentId = nat
  type MilestoneId = nat

  /** A calendar day as a proleptic Gregorian ordinal: day 1 is 0001-01-01, a Monday. */
  type Date = int

  /**
   * Campaign status. The declared choices are InProcess, Completed and
   * Failed; the admin actions also store PendingPulse and InPulse.
   */
  datatype FundingStatus = InProcess | Completed | Failed | PendingPulse | InPulse

  datatype InvestmentStatus = Pledged | Collected | Returned

  datatype Category = Technology | FoodAndBeverage | Retail | HealthAndWellness | ArtsAndCulture | Other

  /** The role recorded on a user's profile. */
  datatype Role = Owner | Investor

  /** A company; each user owns at most one. */
  datatype Company = Company(id: CompanyId, owner: UserId)

  /** A funding campaign. Name and description are free text and left out. */
  datatype Funding = Funding(
    id: FundingId,
    company: CompanyId,
    goal: int,
    endDate: Date,
    status: FundingStatus,
    isApproved: bool,
    category: Category,
    pulseDate: Option<Date>)

  /** The range of an `IntegerField` column on PostgreSQL, whose `integer` type has 32 bits. */
  const IntegerFieldMin: int := -0x8000_0000
  const IntegerFieldMax: int := 0x7FFF_FFFF

  /** Whether the database can store the value in an `IntegerField` column such as `Investment.amount`. */
  predicate FitsIntegerField(a: int)
  {
    IntegerFieldMin <= a <= IntegerFieldMax
  }

  datatype Investment = Investment(
    id: InvestmentId,
    investor: UserId,
    funding: FundingId,
    amount: int,
    status: InvestmentStatus)

  /** What a notification announces; the message text itself is left out. */
  datatype NoticeKind =
    | InvestmentReceived   // to the owner, when an investment is recorded
    | InvestmentConfirmed  // to the investor, when an investment is recorded
    | FundsCollected       // to the investor, when settlement collects
    | FundsReturned        // to the investor, when settlement returns
    | CampaignApproved     // to the owner, when an admin approves
    | MilestoneCompleted   // to the investor, when the owner completes a milestone

  datatype Notification = Notification(
    user: UserId,
    kind: NoticeKind,
    relatedFunding: Option<FundingId>,
    isRead: bool)

  datatype Milestone = Milestone(id: MilestoneId, funding: FundingId, isComplete: bool)

  /** A campaign as created: the fields the owner supplies, the rest at their defaults. */
  function NewFunding(id: FundingId, company: CompanyId, goal: int, endDate: Date): (f: Funding)
    ensures f.id == id && f.company == company && f.goal == goal && f.endDate == endDate
    ensures f.status == InProcess && !f.isApproved && f.category == Other
    ensures f.pulseDate == None
  {
    Funding(id, company, goal, endDate, InProcess, false, Other, None)
  }

  /** An investment as created: pledged, until settlement collects or returns it. */
  function NewInvestment(id: InvestmentId, investor: UserId, funding: FundingId, amount: int): (i: Investment)
    ensures i.id == id && i.investor == investor && i.funding == funding && i.amount == amount
    ensures i.status == Pledged
  {
    Investment(id, investor, funding, amount, Pledged)
  }

  /** A notification as created: unread. */
  function NewNotification(user: UserId, kind: NoticeKind, funding: FundingId): (n: Notification)
    ensures n.user == user && n.kind == kind && n.relatedFunding == Some(funding)
    ensures !n.isRead
  {
    Notification(user, kind, Some(funding), false)
  }

  /** One unread notification of the given kind to the investor of each investment, in order. */
  function NotifyInvestors(investments: seq<Investment>, kind: NoticeKind, funding: FundingId): (r: seq<Notification>)
    ensures |r| == |investments|
    ensures forall k :: 0 <= k < |r| ==> r[k] == NewNotification(investments[k].investor, kind, funding)
  {
    seq(|investments|, k requires 0 <= k < |investments| => NewNotification(investments[k].investor, kind, funding))
  }

  function CompanyIds(companies: seq<Company>): set<CompanyId>
  {
    set c | c in companies :: c.id
  }

  function FundingIds(fundings: seq<Funding>): set<FundingId>
  {
    set f | f in fundings :: f.id
  }

  /** The owner of the company with the given id. */
  function OwnerOf(companies: seq<Company>, company: CompanyId): (owner: UserId)
    requires company in CompanyIds(companies)
    ensures exists c :: c in companies && c.id == company && c.owner == owner
  {
    var k := IndexOf(companies, (c: Company) => c.id == company);
    assert k.Some? by {
      var c :| c in companies && c.id == company;
      assert !(forall x :: x in companies ==> x.id != company);
    }
    companies[k.value].owner
  }

  /** The campaign with the given id, if there is one. */
  function FundingOf(fundings: seq<Funding>, funding: FundingId): (r: Option<Funding>)
    ensures r.Some? ==> r.value in fundings && r.value.id == funding
    ensures r.None? <==> funding !in FundingIds(fundings)
  {
    match IndexOf(fundings, (f: Funding) => f.id == funding)
    case None => None
    case Some(k) => Some(fundings[k])
  }

  /** The investments of one campaign, in table order. */
  function InvestmentsOf(investments: seq<Investment>, funding: FundingId): (r: seq<Investment>)
    ensures forall i :: i in r <==> i in investments && i.funding == funding
  {
    Filter(investments, (i: Investment) => i.funding == funding)
  }

  /** Whether the user already has an investment in the campaign. */
  predicate HasInvested(investments: seq<Investment>, user: UserId, funding: FundingId)
  {
    exists i :: i in investments && i.investor == user && i.funding == funding
  }

  /** Sum of the amounts of a sequence of investments. */
  function SumAmounts(investments: seq<Investment>): int
  {
    if investments == [] then 0 else investments[0].amount + SumAmounts(investments[1..])
  }

  /**
   * `Funding.total_invested`: the sum of `amount` over every investment of
   * the campaign, whatever its status; 0 when it has none.
   */
  function TotalInvested(investments: seq<Investment>, funding: FundingId): int
  {
    if investments == [] then 0
    else (if investments[0].funding == funding then investments[0].amount else 0)
         + TotalInvested(investments[1..], funding)
  }

  /** The total is the plain sum over the campaign's own investments. */
  lemma {:induction false} TotalInvestedIsSumOfOwn(investments: seq<Investment>, funding: FundingId)
    ensures TotalInvested(investments, funding) == SumAmounts(InvestmentsOf(investments, funding))
  {
    if investments != [] {
      TotalInvestedIsSumOfOwn(investments[1..], funding);
    }
  }

  /** A campaign without investments has total 0. */
  lemma {:induction false} TotalInvestedWithoutInvestments(investments: seq<Investment>, funding: FundingId)
    requires forall i :: i in investments ==> i.funding != funding
    ensures TotalInvested(investments, funding) == 0
  {
    if investments != [] {
      assert investments[0] in investments;
      assert forall i :: i in investments[1..] ==> i in investments;
      TotalInvestedWithoutInvestments(investments[1..], funding);
    }
  }

  /**
   * Recording an investment of amount a raises its campaign's total by
   * exactly a and leaves every other campaign's total as it was.
   */
  lemma {:induction false} TotalInvestedAppend(investments: seq<Investment>, i: Investment, funding: FundingId)
    ensures TotalInvested(investments + [i], funding)
         == TotalInvested(investments, funding) + (if i.funding == funding then i.amount else 0)
  {
    if investments == [] {
      assert investments + [i] == [i];
    } else {
      assert (investments + [i])[0] == investments[0];
      assert (investments + [i])[1..] == investments[1..] + [i];
      TotalInvestedAppend(investments[1..], i, funding);
    }
  }

  /** Two tables that differ at most in statuses (and ids, investors) row by row. */
  predicate SameAmounts(a: seq<Investment>, b: seq<Investment>)
  {
    |a| == |b| && forall k :: 0 <= k < |a| ==> a[k].funding == b[k].funding && a[k].amount == b[k].amount
  }

  /** The total does not look at statuses: Returned investments still count. */
  lemma {:induction false} TotalInvestedIgnoresStatus(a: seq<Investment>, b: seq<Investment>, funding: FundingId)
    requires SameAmounts(a, b)
    ensures TotalInvested(a, funding) == TotalInvested(b, funding)
  {
    if a != [] {
      assert SameAmounts(a[1..], b[1..]);
      TotalInvestedIgnoresStatus(a[1..], b[1..], funding);
    }
  }

  /**
   * When every amount is positive, a campaign's total is positive exactly
   * when it has at least one investment.
   */
  lemma {:induction false} TotalInvestedPositive(investments: seq<Investment>, funding: FundingId)
    requires forall i :: i in investments ==> i.amount > 0
    ensures TotalInvested(investments, funding) >= 0
    ensures TotalInvested(investments, funding) > 0 <==> exists i :: i in investments && i.funding == funding
  {
    if investments != [] {
      assert forall i :: i in investments[1..] ==> i in investments;
      TotalInvestedPositive(investments[1..], funding);
      assert investments[0] in investments;
      assert forall i :: i in investments ==> i == investments[0] || i in investments[1..];
    }
  }

  /**
   * `Funding.progress_percentage`, in exact arithmetic: 0 when the goal
   * is not positive, otherwise the total as a percentage of the goal.
   */
  function ProgressPercentage(goal: int, total: int): (p: real)
    ensures goal <= 0 ==> p == 0.0
    ensures goal > 0 ==> p * (goal as real) == (total as real) * 100.0
    ensures goal > 0 && total >= goal ==> p >= 100.0
  {
    if goal > 0 then (total as real / goal as real) * 100.0 else 0.0
  }

  /** Foreign keys the database enforces: every reference names an existing row. */
  predicate ReferencesExist(companies: seq<Company>, fundings: seq<Funding>,
                            investments: seq<Investment>, milestones: seq<Milestone>,
                            notifications: seq<Notification>)
  {
    && (forall f :: f in fundings ==> f.company in CompanyIds(companies))
    && (forall i :: i in investments ==> i.funding in FundingIds(fundings))
    && (forall m :: m in milestones ==> m.funding in FundingIds(fundings))
    && (forall n :: n in notifications && n.relatedFunding.Some? ==> n.relatedFunding.value in FundingIds(fundings))
  }

  /** Rewriting campaigns without touching their ids or companies keeps every foreign key in place. */
  lemma SameKeysKeepReferences(companies: seq<Company>, fundings: seq<Funding>, updated: seq<Funding>,
                               investments: seq<Investment>, milestones: seq<Milestone>,
                               notifications: seq<Notification>)
    requires ReferencesExist(companies, fundings, investments, milestones, notifications)
    requires |updated| == |fundings|
    requires forall k :: 0 <= k < |updated| ==> updated[k].id == fundings[k].id && updated[k].company == fundings[k].company
    ensures FundingIds(updated) == FundingIds(fundings)
    ensures ReferencesExist(companies, updated, investments, milestones, notifications)
  {
  }

  /**
   * The database: one sequence per table, in primary-key order. `Valid`
   * is the foreign keys only; that primary keys are unique is the
   * database's guarantee and is not part of it, so the lemmas that need
   * it (such as `UniqueIds` of the campaigns) take it as a requirement.
   */
  class Store {
    var companies: seq<Company>
    var fundings: seq<Funding>
    var investments: seq<Investment>
    var milestones: seq<Milestone>
    var notifications: seq<Notification>

    ghost predicate Valid()
      reads this
    {
      ReferencesExist(companies, fundings, investments, milestones, notifications)
    }

    constructor ()
      ensures Valid()
      ensures companies == [] && fundings == [] && investments == []
      ensures milestones == [] && notifications == []
    {
      companies, fundings, investments := [], [], [];
      milestones, notifications := [], [];
    }
  }
}

/**
 * The two admin actions on campaigns: approving the selected campaigns,
 * and scheduling them for the weekly Pulse on the coming Sunday.
 * The admin's selection is a set of campaign ids; the current day is a
 * parameter.
 */
module Admin {
  import opened Wrappers
  import opened Seqs
  import opened Models

  /** `date.weekday()`: Monday is 0 and Sunday is 6; day 1 is a Monday. */
  function Weekday(d: Date): (w: int)
    ensures 0 <= w <= 6
  {
    (d + 6) % 7
  }

  /** Within one week from Monday to Sunday, the weekday grows with the day. */
  lemma WeekdayShift(d: Date, e: Date)
    requires 0 <= Weekday(d) + (e - d) <= 6
    ensures Weekday(e) == Weekday(d) + (e - d)
  {
  }

  /**
   * `(6 - today.weekday()) % 7`: the number of days to the nearest
   * Sunday on or after today (0 on a Sunday).
   */
  function DaysUntilSunday(today: Date): (n: int)
    ensures 0 <= n <= 6
    ensures Weekday(today + n) == 6
    ensures forall d :: today <= d < today + n ==> Weekday(d) != 6
  {
    var n := (6 - Weekday(today)) % 7;
    assert n == 6 - Weekday(today);
    WeekdayShift(today, today + n);
    assert forall d :: today <= d < today + n ==> Weekday(d) != 6 by {
      forall d | today <= d < today + n ensures Weekday(d) != 6 {
        WeekdayShift(today, d);
      }
    }
    n
  }

  /** The Pulse date `add_to_next_pulse` sets: today on a Sunday, else the coming Sunday. */
  function NextSunday(today: Date): (sunday: Date)
    ensures today <= sunday <= today + 6
    ensures Weekday(sunday) == 6
    ensures forall d :: today <= d < sunday ==> Weekday(d) != 6
    ensures Weekday(today) == 6 <==> sunday == today
  {
    today + DaysUntilSunday(today)
  }

  /** The campaigns of the admin's selection, in the order of the campaigns table. */
  function Selection(fundings: seq<Funding>, selected: set<FundingId>): (r: seq<Funding>)
    ensures forall f :: f in r <==> f in fundings && f.id in selected
  {
    Filter(fundings, (f: Funding) => f.id in selected)
  }

  /** What approval does to one campaign. */
  function Approve(f: Funding): (r: Funding)
  {
    f.(isApproved := true, status := PendingPulse)
  }

  /** The campaigns table after `approve_campaigns`. */
  function ApproveAll(fundings: seq<Funding>, selected: set<FundingId>): (r: seq<Funding>)
    ensures |r| == |fundings|
    ensures forall k :: 0 <= k < |r| ==> r[k].id == fundings[k].id && r[k].company == fundings[k].company
  {
    seq(|fundings|, k requires 0 <= k < |fundings| =>
      if fundings[k].id in selected then Approve(fundings[k]) else fundings[k])
  }

  /** The notices `approve_campaigns` sends: one per selected campaign, to its company's owner. */
  function ApprovalNotices(companies: seq<Company>, fundings: seq<Funding>, selected: set<FundingId>)
    : (r: seq<Notification>)
    requires forall f :: f in fundings ==> f.company in CompanyIds(companies)
  {
    var s := Selection(fundings, selected);
    seq(|s|, k requires 0 <= k < |s| => NewNotification(OwnerOf(companies, s[k].company), CampaignApproved, s[k].id))
  }

  /**
   * Every selected campaign is approved and moved to 'Pending Pulse',
   * with its other fields as they were; every other campaign is
   * untouched; and the owner of each selected campaign's company gets
   * exactly one unread approval notice about it.
   */
  lemma ApprovalEffect(companies: seq<Company>, fundings: seq<Funding>, selected: set<FundingId>)
    requires forall f :: f in fundings ==> f.company in CompanyIds(companies)
    ensures forall k :: 0 <= k < |fundings| && fundings[k].id in selected ==>
      ApproveAll(fundings, selected)[k].isApproved && ApproveAll(fundings, selected)[k].status == PendingPulse
    ensures forall k :: 0 <= k < |fundings| && fundings[k].id in selected ==>
      ApproveAll(fundings, selected)[k] == fundings[k].(isApproved := true, status := PendingPulse)
    ensures forall k :: 0 <= k < |fundings| && fundings[k].id !in selected ==>
      ApproveAll(fundings, selected)[k] == fundings[k]
    ensures |ApprovalNotices(companies, fundings, selected)| == |Selection(fundings, selected)|
    ensures forall n :: n in ApprovalNotices(companies, fundings, selected) ==>
      && n.kind == CampaignApproved && !n.isRead
      && exists f :: f in fundings && f.id in selected && n.relatedFunding == Some(f.id)
                     && n.user == OwnerOf(companies, f.company)
    ensures var s := Selection(fundings, selected);
      forall k :: 0 <= k < |s| ==>
        ApprovalNotices(companies, fundings, selected)[k] == NewNotification(OwnerOf(companies, s[k].company), CampaignApproved, s[k].id)
    ensures forall f :: f in fundings && f.id in selected ==>
      NewNotification(OwnerOf(companies, f.company), CampaignApproved, f.id) in ApprovalNotices(companies, fundings, selected)
  {
  }

  /** Extending the table by one campaign extends the approval notices by at most one. */
  lemma {:induction false} ApprovalNoticesAppend(companies: seq<Company>, fundings: seq<Funding>, f: Funding,
                                                 selected: set<FundingId>)
    requires forall g :: g in fundings + [f] ==> g.company in CompanyIds(companies)
    ensures ApprovalNotices(companies, fundings + [f], selected)
         == ApprovalNotices(companies, fundings, selected)
            + if f.id in selected then [NewNotification(OwnerOf(companies, f.company), CampaignApproved, f.id)] else []
  {
    FilterAppend(fundings, f, (g: Funding) => g.id in selected);
  }

  /** The body of the loop in `approve_campaigns`, for the campaign at position k. */
  method ApproveOne(db: Store, k: nat, selected: set<FundingId>)
    requires k < |db.fundings| && db.fundings[k].company in CompanyIds(db.companies)
    modifies db
    ensures db.companies == old(db.companies) && db.investments == old(db.investments)
    ensures db.milestones == old(db.milestones)
    ensures var f := old(db.fundings)[k];
      && db.fundings == old(db.fundings)[k := if f.id in selected then Approve(f) else f]
      && db.notifications == old(db.notifications)
           + if f.id in selected then [NewNotification(OwnerOf(db.companies, f.company), CampaignApproved, f.id)] else []
  {
    var campaign := db.fundings[k];
    if campaign.id in selected {
      db.fundings := db.fundings[k := Approve(campaign)];
      db.notifications := db.notifications
        + [NewNotification(OwnerOf(db.companies, campaign.company), CampaignApproved, campaign.id)];
    }
  }

  /** `FundingAdmin.approve_campaigns`, campaign by campaign over the admin's selection. */
  method ApproveCampaigns(db: Store, selected: set<FundingId>)
    requires db.Valid()
    modifies db
    ensures db.Valid()
    ensures db.fundings == ApproveAll(old(db.fundings), selected)
    ensures db.notifications == old(db.notifications) + ApprovalNotices(db.companies, old(db.fundings), selected)
    ensures db.companies == old(db.companies) && db.investments == old(db.investments)
    ensures db.milestones == old(db.milestones)
  {
    ghost var fundings := db.fundings;
    var k := 0;
    while k < |db.fundings|
      invariant 0 <= k <= |db.fundings| == |fundings|
      invariant forall j :: 0 <= j < |fundings| ==>
        db.fundings[j] == if j < k && fundings[j].id in selected then Approve(fundings[j]) else fundings[j]
      invariant db.companies == old(db.companies)
      invariant forall f :: f in fundings ==> f.company in CompanyIds(db.companies)
      invariant db.notifications == old(db.notifications) + ApprovalNotices(db.companies, fundings[..k], selected)
      invariant db.investments == old(db.investments) && db.milestones == old(db.milestones)
    {
      assert fundings[..k + 1] == fundings[..k] + [fundings[k]];
      assert fundings[k] in fundings;
      ApprovalNoticesAppend(db.companies, fundings[..k], fundings[k], selected);
      ApproveOne(db, k, selected);
      k := k + 1;
    }
    assert fundings[..k] == fundings;
    assert db.fundings == ApproveAll(fundings, selected);
    ApprovalEffect(db.companies, fundings, selected);
    SameKeysKeepReferences(db.companies, fundings, db.fundings, db.investments, db.milestones, db.notifications);
  }

  /** The campaigns table after `add_to_next_pulse`. */
  function PulseAll(fundings: seq<Funding>, selected: set<FundingId>, sunday: Date): (r: seq<Funding>)
    ensures |r| == |fundings|
    ensures forall k :: 0 <= k < |r| ==> r[k].id == fundings[k].id && r[k].company == fundings[k].company
  {
    var pulseDate: Option<Date> := Some(sunday);
    seq(|fundings|, k requires 0 <= k < |fundings| =>
      if fundings[k].id in selected then fundings[k].(status := InPulse, pulseDate := pulseDate) else fundings[k])
  }

  /**
   * `FundingAdmin.add_to_next_pulse`: one bulk update puts every selected
   * campaign, approved or not, 'In Pulse' with the coming Sunday as its
   * Pulse date, and reports how many rows it updated.
   */
  method AddToNextPulse(db: Store, selected: set<FundingId>, today: Date) returns (updated: nat)
    requires db.Valid()
    modifies db
    ensures db.Valid()
    ensures db.fundings == PulseAll(old(db.fundings), selected, NextSunday(today))
    ensures updated == |Selection(old(db.fundings), selected)|
    ensures db.companies == old(db.companies) && db.investments == old(db.investments)
    ensures db.milestones == old(db.milestones) && db.notifications == old(db.notifications)
  {
    var sunday := today + DaysUntilSunday(today);
    updated := |Selection(db.fundings, selected)|;
    var fundings := PulseAll(db.fundings, selected, sunday);
    SameKeysKeepReferences(db.companies, db.fundings, fundings, db.investments, db.milestones, db.notifications);
    db.fundings := fundings;
  }

  /**
   * Every campaign the action selects shares one Pulse date: a Sunday,
   * within the coming week, and the first Sunday on or after today; its
   * other fields, approval included, stay as they were. Every other
   * campaign is untouched.
   */
  lemma PulseDateIsNextSunday(fundings: seq<Funding>, selected: set<FundingId>, today: Date)
    ensures forall k :: 0 <= k < |fundings| && fundings[k].id in selected ==>
      var f := PulseAll(fundings, selected, NextSunday(today))[k];
      && f.status == InPulse && f.pulseDate.Some?
      && Weekday(f.pulseDate.value) == 6
      && today <= f.pulseDate.value <= today + 6
      && forall d :: today <= d < f.pulseDate.value ==> Weekday(d) != 6
    ensures forall k :: 0 <= k < |fundings| && fundings[k].id in selected ==>
      PulseAll(fundings, selected, NextSunday(today))[k]
        == fundings[k].(status := InPulse, pulseDate := Some(NextSunday(today)))
    ensures forall k :: 0 <= k < |fundings| && fundings[k].id !in selected ==>
      PulseAll(fundings, selected, NextSunday(today))[k] == fundings[k]
  {
  }
}

/**
 * Properties that tie the operations together along a campaign's life:
 * what approval and the Pulse do to visibility and settlement, and what
 * settlement does to the editing of investments.
 */
module Lifecycle {
  import opened Models
  import opened Settlement
  import opened Views
  import opened Admin

  /**
   * The `approve_campaigns` action moves a campaign to 'Pending Pulse', so
   * a campaign it approves is not in the public listing and a run of the
   * settlement command leaves it alone, however far past its end date it is.
   */
  lemma ApprovedCampaignsStayUnlisted(fundings: seq<Funding>, investments: seq<Investment>,
                                      selected: set<FundingId>, today: Date)
    ensures forall f :: f in PublicListing(ApproveAll(fundings, selected)) ==> f.id !in selected
    ensures forall k :: 0 <= k < |fundings| && fundings[k].id in selected ==>
      Run(ApproveAll(fundings, selected), investments, today).fundings[k] == ApproveAll(fundings, selected)[k]
  {
    var approved := ApproveAll(fundings, selected);
    RunFundings(approved, investments, today);
    forall f | f in PublicListing(approved) ensures f.id !in selected {
      var k :| 0 <= k < |approved| && approved[k] == f;
    }
  }

  /**
   * A campaign put in the Pulse is 'In Pulse': it is not in the public
   * listing and the settlement run never settles it.
   */
  lemma PulsedCampaignsAreNeverSettled(fundings: seq<Funding>, investments: seq<Investment>,
                                       selected: set<FundingId>, sunday: Date, today: Date)
    ensures forall f :: f in PublicListing(PulseAll(fundings, selected, sunday)) ==> f.id !in selected
    ensures forall k :: 0 <= k < |fundings| && fundings[k].id in selected ==>
      Run(PulseAll(fundings, selected, sunday), investments, today).fundings[k] == PulseAll(fundings, selected, sunday)[k]
  {
    var pulsed := PulseAll(fundings, selected, sunday);
    RunFundings(pulsed, investments, today);
    forall f | f in PublicListing(pulsed) ensures f.id !in selected {
      var k :| 0 <= k < |pulsed| && pulsed[k] == f;
    }
  }

  /**
   * After a settlement run, the edit and withdraw guard lets no investor
   * touch an investment of a campaign the run settled.
   */
  lemma SettledInvestmentsAreLocked(companies: seq<Company>, fundings: seq<Funding>, investments: seq<Investment>,
                                    milestones: seq<Milestone>, notifications: seq<Notification>,
                                    today: Date, user: UserId, id: InvestmentId)
    requires ReferencesExist(companies, fundings, investments, milestones, notifications)
    requires UniqueIds(fundings)
    ensures var b := Run(fundings, investments, today);
      && ReferencesExist(companies, b.fundings, b.investments, milestones, notifications + b.notices)
      && var g := InvestmentGuard(b.fundings, b.investments, user, id);
         g.Ok? ==> forall j :: 0 <= j < |fundings| && fundings[j].id == b.investments[g.value].funding ==>
                                !Expired(fundings[j], today)
  {
    RunKeepsReferences(companies, fundings, investments, milestones, notifications, today);
    GuardPassesNoSettled(fundings, investments, today, user, id);
  }

  /** The guard half of `SettledInvestmentsAreLocked`. */
  lemma GuardPassesNoSettled(fundings: seq<Funding>, investments: seq<Investment>,
                             today: Date, user: UserId, id: InvestmentId)
    requires UniqueIds(fundings)
    requires var b := Run(fundings, investments, today);
      forall i :: i in b.investments ==> i.funding in FundingIds(b.fundings)
    ensures var b := Run(fundings, investments, today);
      var g := InvestmentGuard(b.fundings, b.investments, user, id);
      g.Ok? ==> forall j :: 0 <= j < |fundings| && fundings[j].id == b.investments[g.value].funding ==>
                             !Expired(fundings[j], today)
  {
    var b := Run(fundings, investments, today);
    RunFundings(fundings, investments, today);
    var g := InvestmentGuard(b.fundings, b.investments, user, id);
    if g.Ok? {
      var fid := b.investments[g.value].funding;
      var f := FundingOf(b.fundings, fid).value;
      var k :| 0 <= k < |b.fundings| && b.fundings[k] == f;
      forall j | 0 <= j < |fundings| && fundings[j].id == fid ensures !Expired(fundings[j], today) {
        assert j == k;
      }
    }
  }
}

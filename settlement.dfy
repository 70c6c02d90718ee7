/**
 * The `update_campaign_statuses` management command: every campaign still
 * 'In Process' whose end date has passed is settled. It becomes Completed
 * when its total reaches the goal, and then every one of its investments
 * is collected; otherwise it becomes Failed, and its pledged investments
 * are returned. Each rewritten investment notifies its investor.
 *
 * `Run` is the specification of one run of the job, a fold over the
 * campaign table; `Handle` is the job itself and is proved to compute it.
 */
module Settlement {
  import opened Wrappers
  import opened Seqs
  import opened Models

  /** The campaigns the job selects. Approval is not looked at. */
  predicate Expired(f: Funding, today: Date)
  {
    f.status == InProcess && f.endDate < today
  }

  /** Whether settling campaign `funding` with the given outcome rewrites the investment. */
  predicate Selected(i: Investment, funding: FundingId, success: bool)
  {
    i.funding == funding && (success || i.status == Pledged)
  }

  /** The investment after its campaign is settled with the given outcome. */
  function Rewrite(i: Investment, funding: FundingId, success: bool): Investment
  {
    if !Selected(i, funding, success) then i
    else if success then i.(status := Collected)
    else i.(status := Returned)
  }

  function RewriteAll(investments: seq<Investment>, funding: FundingId, success: bool): (r: seq<Investment>)
    ensures |r| == |investments|
    ensures forall k :: 0 <= k < |r| ==> r[k] == Rewrite(investments[k], funding, success)
  {
    seq(|investments|, k requires 0 <= k < |investments| => Rewrite(investments[k], funding, success))
  }

  /** The investments that settling the campaign rewrites, in table order. */
  function ToRewrite(investments: seq<Investment>, funding: FundingId, success: bool): seq<Investment>
  {
    Filter(investments, (i: Investment) => Selected(i, funding, success))
  }

  /** One notification per rewritten investment, to its investor. */
  function SettlementNotices(investments: seq<Investment>, funding: FundingId, success: bool): seq<Notification>
  {
    NotifyInvestors(ToRewrite(investments, funding, success),
                    if success then FundsCollected else FundsReturned, funding)
  }

  function Settle(f: Funding, success: bool): Funding
  {
    f.(status := if success then Completed else Failed)
  }

  /** The state a run leaves behind, and its two counters. */
  datatype Batch = Batch(
    fundings: seq<Funding>,
    investments: seq<Investment>,
    notices: seq<Notification>,
    completed: nat,
    failed: nat)

  /**
   * The job's treatment of one campaign, given the state the earlier ones
   * left: its total is read when it is reached, as the job does.
   */
  function Step(b: Batch, f: Funding, today: Date): (r: Batch)
    ensures |r.fundings| == |b.fundings| + 1
    ensures |r.investments| == |b.investments|
  {
    if !Expired(f, today) then b.(fundings := b.fundings + [f])
    else
      var success := TotalInvested(b.investments, f.id) >= f.goal;
      Batch(b.fundings + [Settle(f, success)],
            RewriteAll(b.investments, f.id, success),
            b.notices + SettlementNotices(b.investments, f.id, success),
            if success then b.completed + 1 else b.completed,
            if success then b.failed else b.failed + 1)
  }

  /** One run of the job over the campaigns in table order. */
  function Run(fundings: seq<Funding>, investments: seq<Investment>, today: Date): (b: Batch)
    ensures |b.fundings| == |fundings|
    ensures |b.investments| == |investments|
    decreases |fundings|
  {
    if fundings == [] then Batch([], investments, [], 0, 0)
    else Step(Run(fundings[..|fundings| - 1], investments, today), fundings[|fundings| - 1], today)
  }

  /** Whether the campaign reaches its goal, judged on the investments as they were before the run. */
  predicate Succeeds(f: Funding, investments: seq<Investment>)
  {
    TotalInvested(investments, f.id) >= f.goal
  }

  /** Primary keys: no two campaigns share an id. */
  predicate UniqueIds(fundings: seq<Funding>)
  {
    forall i, j :: 0 <= i < j < |fundings| ==> fundings[i].id != fundings[j].id
  }

  /** A run changes statuses only, so every campaign's total stays what it was. */
  lemma {:induction false} RunKeepsAmounts(fundings: seq<Funding>, investments: seq<Investment>, today: Date)
    ensures SameAmounts(investments, Run(fundings, investments, today).investments)
    ensures forall x :: TotalInvested(Run(fundings, investments, today).investments, x) == TotalInvested(investments, x)
    decreases |fundings|
  {
    var b := Run(fundings, investments, today);
    if fundings != [] {
      RunKeepsAmounts(fundings[..|fundings| - 1], investments, today);
    }
    forall x ensures TotalInvested(b.investments, x) == TotalInvested(investments, x) {
      TotalInvestedIgnoresStatus(investments, b.investments, x);
    }
  }

  /**
   * Only campaigns 'In Process' with an end date before today are touched
   * (one ending today is left alone); each becomes Completed when its
   * total reaches its goal and Failed otherwise. Nothing else changes.
   */
  lemma {:induction false} RunFundings(fundings: seq<Funding>, investments: seq<Investment>, today: Date)
    ensures var b := Run(fundings, investments, today);
      forall k :: 0 <= k < |fundings| ==>
        b.fundings[k] == if Expired(fundings[k], today)
                         then fundings[k].(status := if Succeeds(fundings[k], investments) then Completed else Failed)
                         else fundings[k]
    decreases |fundings|
  {
    if fundings != [] {
      var n := |fundings|;
      var prefix := fundings[..n - 1];
      RunFundings(prefix, investments, today);
      RunKeepsAmounts(prefix, investments, today);
      assert forall k :: 0 <= k < n - 1 ==> prefix[k] == fundings[k];
    }
  }

  /** After a run no campaign is left 'In Process' past its end date. */
  lemma RunLeavesNothingExpired(fundings: seq<Funding>, investments: seq<Investment>, today: Date)
    ensures forall f :: f in Run(fundings, investments, today).fundings ==> !Expired(f, today)
  {
  }

  /** A run over campaigns none of which is expired changes nothing and counts nothing. */
  lemma {:induction false} RunWithNothingExpired(fundings: seq<Funding>, investments: seq<Investment>, today: Date)
    requires forall f :: f in fundings ==> !Expired(f, today)
    ensures Run(fundings, investments, today) == Batch(fundings, investments, [], 0, 0)
    decreases |fundings|
  {
    if fundings != [] {
      var n := |fundings|;
      assert fundings[n - 1] in fundings;
      assert forall f :: f in fundings[..n - 1] ==> f in fundings;
      RunWithNothingExpired(fundings[..n - 1], investments, today);
      assert fundings[..n - 1] + [fundings[n - 1]] == fundings;
    }
  }

  /** A second run with the same date changes nothing. */
  lemma RunIsIdempotent(fundings: seq<Funding>, investments: seq<Investment>, today: Date)
    ensures var b := Run(fundings, investments, today);
      Run(b.fundings, b.investments, today) == Batch(b.fundings, b.investments, [], 0, 0)
  {
    var b := Run(fundings, investments, today);
    RunLeavesNothingExpired(fundings, investments, today);
    RunWithNothingExpired(b.fundings, b.investments, today);
  }

  /**
   * The counters: `completed` is the number of selected campaigns that
   * reached their goal, `failed` the number that did not, so together
   * they count the selected campaigns.
   */
  lemma {:induction false} RunCounts(fundings: seq<Funding>, investments: seq<Investment>, today: Date)
    ensures var b := Run(fundings, investments, today);
      && b.completed == |Filter(fundings, (f: Funding) => Expired(f, today) && Succeeds(f, investments))|
      && b.failed == |Filter(fundings, (f: Funding) => Expired(f, today) && !Succeeds(f, investments))|
      && b.completed + b.failed == |Filter(fundings, (f: Funding) => Expired(f, today))|
    decreases |fundings|
  {
    if fundings != [] {
      var n := |fundings|;
      var prefix := fundings[..n - 1];
      var last := fundings[n - 1];
      RunCounts(prefix, investments, today);
      RunKeepsAmounts(prefix, investments, today);
      assert prefix + [last] == fundings;
      FilterAppend(prefix, last, (f: Funding) => Expired(f, today) && Succeeds(f, investments));
      FilterAppend(prefix, last, (f: Funding) => Expired(f, today) && !Succeeds(f, investments));
      FilterAppend(prefix, last, (f: Funding) => Expired(f, today));
    }
  }

  /**
   * The investments after a run (campaign ids being unique): those of a
   * campaign that succeeded are all Collected, whatever their status was;
   * of a campaign that failed, the Pledged ones become Returned and the
   * others keep their status; those of a campaign not selected are left
   * alone. Investor, campaign and amount never change.
   */
  lemma {:induction false} RunInvestments(fundings: seq<Funding>, investments: seq<Investment>, today: Date)
    requires UniqueIds(fundings)
    ensures var b := Run(fundings, investments, today);
      forall k, j :: 0 <= k < |investments| && 0 <= j < |fundings| && Expired(fundings[j], today)
                     && fundings[j].id == investments[k].funding ==>
        b.investments[k] == investments[k].(status :=
          if Succeeds(fundings[j], investments) then Collected
          else if investments[k].status == Pledged then Returned
          else investments[k].status)
    ensures var b := Run(fundings, investments, today);
      forall k :: 0 <= k < |investments|
                  && (forall j :: 0 <= j < |fundings| && Expired(fundings[j], today) ==> fundings[j].id != investments[k].funding) ==>
        b.investments[k] == investments[k]
    decreases |fundings|
  {
    if fundings != [] {
      var n := |fundings|;
      var prefix := fundings[..n - 1];
      var f := fundings[n - 1];
      assert forall j :: 0 <= j < n - 1 ==> prefix[j] == fundings[j];
      assert UniqueIds(prefix);
      RunInvestments(prefix, investments, today);
      RunKeepsAmounts(prefix, investments, today);
      var b' := Run(prefix, investments, today);
      var b := Run(fundings, investments, today);
      if Expired(f, today) {
        forall k | 0 <= k < |investments| && investments[k].funding == f.id
          ensures b'.investments[k] == investments[k]
        {
          forall j | 0 <= j < n - 1 && Expired(prefix[j], today)
            ensures prefix[j].id != investments[k].funding
          {
            assert fundings[j].id != fundings[n - 1].id;
          }
        }
      }
    }
  }

  /** Every notice a run sends is linked to one of the campaigns it ran over. */
  lemma {:induction false} RunNoticesLinked(fundings: seq<Funding>, investments: seq<Investment>, today: Date)
    ensures forall n :: n in Run(fundings, investments, today).notices ==>
      n.relatedFunding.Some? && n.relatedFunding.value in FundingIds(fundings)
    decreases |fundings|
  {
    if fundings != [] {
      var last := |fundings| - 1;
      var prefix := fundings[..last];
      RunNoticesLinked(prefix, investments, today);
      assert forall f :: f in prefix ==> f in fundings;
      assert fundings[last] in fundings;
      var b := Run(prefix, investments, today);
      var r := Run(fundings, investments, today);
      forall n | n in r.notices
        ensures n.relatedFunding.Some? && n.relatedFunding.value in FundingIds(fundings)
      {
        if n !in b.notices {
          var success := TotalInvested(b.investments, fundings[last].id) >= fundings[last].goal;
          var added := SettlementNotices(b.investments, fundings[last].id, success);
          assert n in added;
          var k :| 0 <= k < |added| && added[k] == n;
        }
      }
    }
  }

  /**
   * A run changes neither ids, companies nor the campaign of an
   * investment, and links its notices to existing campaigns, so foreign
   * keys survive it.
   */
  lemma RunKeepsReferences(companies: seq<Company>, fundings: seq<Funding>, investments: seq<Investment>,
                           milestones: seq<Milestone>, notifications: seq<Notification>, today: Date)
    requires ReferencesExist(companies, fundings, investments, milestones, notifications)
    ensures var b := Run(fundings, investments, today);
      ReferencesExist(companies, b.fundings, b.investments, milestones, notifications + b.notices)
  {
    var b := Run(fundings, investments, today);
    RunFundings(fundings, investments, today);
    RunKeepsAmounts(fundings, investments, today);
    RunNoticesLinked(fundings, investments, today);
    SameKeysKeepReferences(companies, fundings, b.fundings, investments, milestones, notifications);
    forall i | i in b.investments ensures i.funding in FundingIds(b.fundings) {
      var k :| 0 <= k < |b.investments| && b.investments[k] == i;
      assert investments[k] in investments;
    }
  }

  /** Whether some selected campaign's settlement rewrites the investment. */
  predicate Rewritten(fundings: seq<Funding>, investments: seq<Investment>, today: Date, i: Investment)
  {
    exists j :: 0 <= j < |fundings| && Expired(fundings[j], today)
                && Selected(i, fundings[j].id, Succeeds(fundings[j], investments))
  }

  /** A campaign the run skips adds no rewritten investment. */
  lemma RewrittenSkip(fundings: seq<Funding>, investments: seq<Investment>, today: Date)
    requires |fundings| > 0 && !Expired(fundings[|fundings| - 1], today)
    ensures Filter(investments, (i: Investment) => Rewritten(fundings, investments, today, i))
         == Filter(investments, (i: Investment) => Rewritten(fundings[..|fundings| - 1], investments, today, i))
  {
    var n := |fundings|;
    var prefix := fundings[..n - 1];
    forall i | i in investments
      ensures Rewritten(fundings, investments, today, i) == Rewritten(prefix, investments, today, i)
    {
      if Rewritten(fundings, investments, today, i) {
        var j :| 0 <= j < n && Expired(fundings[j], today)
                 && Selected(i, fundings[j].id, Succeeds(fundings[j], investments));
        assert prefix[j] == fundings[j];
      }
      if Rewritten(prefix, investments, today, i) {
        var j :| 0 <= j < n - 1 && Expired(prefix[j], today)
                 && Selected(i, prefix[j].id, Succeeds(prefix[j], investments));
        assert prefix[j] == fundings[j];
      }
    }
    FilterSamePredicate(investments, (i: Investment) => Rewritten(fundings, investments, today, i),
                        (i: Investment) => Rewritten(prefix, investments, today, i));
  }

  /** A campaign the run settles adds exactly its own selected investments. */
  lemma RewrittenSettle(fundings: seq<Funding>, investments: seq<Investment>, today: Date)
    requires UniqueIds(fundings)
    requires |fundings| > 0 && Expired(fundings[|fundings| - 1], today)
    ensures var f := fundings[|fundings| - 1];
      |Filter(investments, (i: Investment) => Rewritten(fundings, investments, today, i))|
      == |Filter(investments, (i: Investment) => Rewritten(fundings[..|fundings| - 1], investments, today, i))|
         + |ToRewrite(investments, f.id, Succeeds(f, investments))|
  {
    var n := |fundings|;
    var prefix := fundings[..n - 1];
    var f := fundings[n - 1];
    var success := Succeeds(f, investments);
    var before := (i: Investment) => Rewritten(prefix, investments, today, i);
    var after := (i: Investment) => Rewritten(fundings, investments, today, i);
    var here := (i: Investment) => Selected(i, f.id, success);
    forall i | i in investments ensures !(before(i) && here(i)) && after(i) == (before(i) || here(i)) {
      if before(i) {
        var j :| 0 <= j < n - 1 && Expired(prefix[j], today)
                 && Selected(i, prefix[j].id, Succeeds(prefix[j], investments));
        assert prefix[j] == fundings[j];
        assert fundings[j].id != fundings[n - 1].id;
      }
      if after(i) && !here(i) {
        var j :| 0 <= j < n && Expired(fundings[j], today)
                 && Selected(i, fundings[j].id, Succeeds(fundings[j], investments));
        assert j < n - 1 && prefix[j] == fundings[j];
      }
      if here(i) {
        assert Expired(fundings[n - 1], today) && Selected(i, fundings[n - 1].id, Succeeds(fundings[n - 1], investments));
      }
    }
    FilterDisjointUnion(investments, before, here, after);
  }

  /**
   * When the run reaches a campaign, its own investments are still as they
   * were, so it selects as many as it would have at the start.
   */
  lemma SettleSeesOriginal(fundings: seq<Funding>, investments: seq<Investment>, today: Date)
    requires UniqueIds(fundings)
    requires |fundings| > 0 && Expired(fundings[|fundings| - 1], today)
    ensures var f := fundings[|fundings| - 1];
      var b := Run(fundings[..|fundings| - 1], investments, today);
      |ToRewrite(b.investments, f.id, TotalInvested(b.investments, f.id) >= f.goal)|
      == |ToRewrite(investments, f.id, Succeeds(f, investments))|
  {
    var n := |fundings|;
    var prefix := fundings[..n - 1];
    var f := fundings[n - 1];
    assert forall j :: 0 <= j < n - 1 ==> prefix[j] == fundings[j];
    assert UniqueIds(prefix);
    RunKeepsAmounts(prefix, investments, today);
    RunInvestments(prefix, investments, today);
    var b := Run(prefix, investments, today);
    var success := Succeeds(f, investments);
    assert TotalInvested(b.investments, f.id) >= f.goal <==> success;
    forall k | 0 <= k < |investments|
      ensures Selected(investments[k], f.id, success) == Selected(b.investments[k], f.id, success)
    {
      if investments[k].funding == f.id {
        forall j | 0 <= j < n - 1 && Expired(prefix[j], today)
          ensures prefix[j].id != investments[k].funding
        {
          assert fundings[j].id != fundings[n - 1].id;
        }
      }
    }
    FilterCountPointwise(investments, (i: Investment) => Selected(i, f.id, success),
                         b.investments, (i: Investment) => Selected(i, f.id, success));
  }

  /**
   * Exactly one notification is emitted per rewritten investment (campaign
   * ids being unique).
   */
  lemma {:induction false} RunNoticeCount(fundings: seq<Funding>, investments: seq<Investment>, today: Date)
    requires UniqueIds(fundings)
    ensures |Run(fundings, investments, today).notices|
         == |Filter(investments, (i: Investment) => Rewritten(fundings, investments, today, i))|
    decreases |fundings|
  {
    var n := |fundings|;
    if n == 0 {
      var r := Filter(investments, (i: Investment) => Rewritten(fundings, investments, today, i));
      if |r| > 0 {
        assert r[0] in r;
      }
    } else {
      var prefix := fundings[..n - 1];
      var f := fundings[n - 1];
      assert forall j :: 0 <= j < n - 1 ==> prefix[j] == fundings[j];
      assert UniqueIds(prefix);
      RunNoticeCount(prefix, investments, today);
      if !Expired(f, today) {
        RewrittenSkip(fundings, investments, today);
      } else {
        RewrittenSettle(fundings, investments, today);
        SettleSeesOriginal(fundings, investments, today);
      }
    }
  }

  /** The notice settling campaign `funding` with the given outcome sends about one rewritten investment. */
  function SettlementNotice(i: Investment, funding: FundingId, success: bool): (n: Notification)
    ensures n.user == i.investor && n.relatedFunding == Some(funding) && !n.isRead
    ensures n.kind == (if success then FundsCollected else FundsReturned)
  {
    NewNotification(i.investor, if success then FundsCollected else FundsReturned, funding)
  }

  /**
   * Every investment the run rewrites sends its investor a notice about
   * its campaign, FundsCollected or FundsReturned to match the outcome
   * (campaign ids being unique).
   */
  lemma {:induction false} RunNotifiesRewritten(fundings: seq<Funding>, investments: seq<Investment>, today: Date)
    requires UniqueIds(fundings)
    ensures forall k, j :: 0 <= k < |investments| && 0 <= j < |fundings| && Expired(fundings[j], today)
                           && Selected(investments[k], fundings[j].id, Succeeds(fundings[j], investments)) ==>
      SettlementNotice(investments[k], fundings[j].id, Succeeds(fundings[j], investments))
        in Run(fundings, investments, today).notices
    decreases |fundings|
  {
    if fundings != [] {
      var n := |fundings|;
      var prefix := fundings[..n - 1];
      var f := fundings[n - 1];
      assert forall j :: 0 <= j < n - 1 ==> prefix[j] == fundings[j];
      assert UniqueIds(prefix);
      RunNotifiesRewritten(prefix, investments, today);
      var b := Run(prefix, investments, today);
      var r := Run(fundings, investments, today);
      assert forall x :: x in b.notices ==> x in r.notices;
      forall k, j | 0 <= k < |investments| && 0 <= j < n && Expired(fundings[j], today)
                    && Selected(investments[k], fundings[j].id, Succeeds(fundings[j], investments))
        ensures SettlementNotice(investments[k], fundings[j].id, Succeeds(fundings[j], investments)) in r.notices
      {
        if j == n - 1 {
          var success := Succeeds(f, investments);
          var i := investments[k];
          RunKeepsAmounts(prefix, investments, today);
          RunInvestments(prefix, investments, today);
          forall j' | 0 <= j' < n - 1 && Expired(prefix[j'], today) ensures prefix[j'].id != i.funding {
            assert fundings[j'].id != fundings[n - 1].id;
          }
          assert b.investments[k] == i;
          var rewritten := ToRewrite(b.investments, f.id, success);
          assert i in rewritten;
          var m :| 0 <= m < |rewritten| && rewritten[m] == i;
          var added := SettlementNotices(b.investments, f.id, success);
          assert r.notices == b.notices + added;
          assert added[m] == SettlementNotice(i, f.id, success);
        }
      }
    }
  }

  /**
   * Conversely, every notice a run sends is the notice of some investment
   * it rewrites, about that investment's campaign (campaign ids being
   * unique). With `RunNoticeCount`, the run sends one notice per
   * rewritten investment and nothing else.
   */
  lemma {:induction false} RunNoticesFromRewrites(fundings: seq<Funding>, investments: seq<Investment>, today: Date)
    requires UniqueIds(fundings)
    ensures forall x :: x in Run(fundings, investments, today).notices ==>
      exists k, j :: 0 <= k < |investments| && 0 <= j < |fundings| && Expired(fundings[j], today)
                     && Selected(investments[k], fundings[j].id, Succeeds(fundings[j], investments))
                     && x == SettlementNotice(investments[k], fundings[j].id, Succeeds(fundings[j], investments))
    decreases |fundings|
  {
    if fundings != [] {
      var n := |fundings|;
      var prefix := fundings[..n - 1];
      var f := fundings[n - 1];
      assert forall j :: 0 <= j < n - 1 ==> prefix[j] == fundings[j];
      assert UniqueIds(prefix);
      RunNoticesFromRewrites(prefix, investments, today);
      var b := Run(prefix, investments, today);
      var r := Run(fundings, investments, today);
      forall x | x in r.notices
        ensures exists k, j :: 0 <= k < |investments| && 0 <= j < |fundings| && Expired(fundings[j], today)
                               && Selected(investments[k], fundings[j].id, Succeeds(fundings[j], investments))
                               && x == SettlementNotice(investments[k], fundings[j].id, Succeeds(fundings[j], investments))
      {
        if x in b.notices {
          var k, j :| 0 <= k < |investments| && 0 <= j < n - 1 && Expired(prefix[j], today)
                      && Selected(investments[k], prefix[j].id, Succeeds(prefix[j], investments))
                      && x == SettlementNotice(investments[k], prefix[j].id, Succeeds(prefix[j], investments));
          assert prefix[j] == fundings[j];
        } else {
          var success := Succeeds(f, investments);
          RunKeepsAmounts(prefix, investments, today);
          RunInvestments(prefix, investments, today);
          var rewritten := ToRewrite(b.investments, f.id, success);
          var added := SettlementNotices(b.investments, f.id, success);
          assert Expired(f, today) && r.notices == b.notices + added;
          var m :| 0 <= m < |added| && added[m] == x;
          assert rewritten[m] in rewritten;
          var k :| 0 <= k < |b.investments| && b.investments[k] == rewritten[m];
          forall j' | 0 <= j' < n - 1 && Expired(prefix[j'], today) ensures prefix[j'].id != investments[k].funding {
            assert fundings[j'].id != fundings[n - 1].id;
          }
          assert b.investments[k] == investments[k];
          assert x == SettlementNotice(investments[k], fundings[n - 1].id, Succeeds(fundings[n - 1], investments));
        }
      }
    }
  }

  /** One more step of the run: the campaign at position i is processed after those before it. */
  lemma RunExtend(fundings: seq<Funding>, investments: seq<Investment>, today: Date, i: nat)
    requires i < |fundings|
    ensures Run(fundings[..i + 1], investments, today) == Step(Run(fundings[..i], investments, today), fundings[i], today)
  {
    assert fundings[..i + 1][..i] == fundings[..i];
  }

  /** The notices of a table extended by one investment. */
  lemma SettlementNoticesAppend(investments: seq<Investment>, i: Investment, funding: FundingId, success: bool)
    ensures SettlementNotices(investments + [i], funding, success)
         == SettlementNotices(investments, funding, success)
            + if Selected(i, funding, success)
              then [NewNotification(i.investor, if success then FundsCollected else FundsReturned, funding)]
              else []
  {
    FilterAppend(investments, i, (x: Investment) => Selected(x, funding, success));
  }

  /** Rewrites the investments of one campaign being settled and notifies their investors. */
  method RewriteInvestments(db: Store, funding: FundingId, success: bool)
    modifies db
    ensures db.investments == RewriteAll(old(db.investments), funding, success)
    ensures db.notifications == old(db.notifications) + SettlementNotices(old(db.investments), funding, success)
    ensures db.companies == old(db.companies) && db.fundings == old(db.fundings)
    ensures db.milestones == old(db.milestones)
  {
    ghost var investments, notices := db.investments, db.notifications;
    var kind := if success then FundsCollected else FundsReturned;
    var j := 0;
    while j < |db.investments|
      invariant 0 <= j <= |db.investments| == |investments|
      invariant forall k :: 0 <= k < j ==> db.investments[k] == Rewrite(investments[k], funding, success)
      invariant forall k :: j <= k < |investments| ==> db.investments[k] == investments[k]
      invariant db.notifications == notices + SettlementNotices(investments[..j], funding, success)
      invariant db.companies == old(db.companies) && db.fundings == old(db.fundings)
      invariant db.milestones == old(db.milestones)
    {
      var investment := db.investments[j];
      SettlementNoticesAppend(investments[..j], investment, funding, success);
      assert investments[..j + 1] == investments[..j] + [investment];
      if Selected(investment, funding, success) {
        db.investments := db.investments[j := investment.(status := if success then Collected else Returned)];
        db.notifications := db.notifications + [NewNotification(investment.investor, kind, funding)];
      }
      j := j + 1;
    }
    assert investments[..j] == investments;
  }

  /** Gives the campaign at position i its final status and settles its investments. */
  method CloseCampaign(db: Store, i: nat, success: bool)
    requires i < |db.fundings|
    modifies db
    ensures db.fundings == old(db.fundings)[i := Settle(old(db.fundings[i]), success)]
    ensures db.investments == RewriteAll(old(db.investments), old(db.fundings[i]).id, success)
    ensures db.notifications
         == old(db.notifications) + SettlementNotices(old(db.investments), old(db.fundings[i]).id, success)
    ensures db.companies == old(db.companies) && db.milestones == old(db.milestones)
  {
    var campaign := db.fundings[i];
    db.fundings := db.fundings[i := campaign.(status := if success then Completed else Failed)];
    RewriteInvestments(db, campaign.id, success);
  }

  /**
   * The body of the job's loop for the campaign at position i, given the
   * state `b` the earlier campaigns left: it performs `Step`. The result
   * says which counter the campaign adds to, if any.
   */
  method SettleNext(db: Store, i: nat, today: Date, ghost fundings: seq<Funding>,
                    ghost notices: seq<Notification>, ghost b: Batch)
    returns (outcome: Option<bool>)
    requires i < |fundings| && |b.fundings| == i
    requires db.fundings == b.fundings + fundings[i..]
    requires db.investments == b.investments && db.notifications == notices + b.notices
    modifies db
    ensures var next := Step(b, fundings[i], today);
      && db.fundings == next.fundings + fundings[i + 1..]
      && db.investments == next.investments
      && db.notifications == notices + next.notices
      && next.completed == b.completed + (if outcome == Some(true) then 1 else 0)
      && next.failed == b.failed + (if outcome == Some(false) then 1 else 0)
    ensures db.companies == old(db.companies) && db.milestones == old(db.milestones)
  {
    assert fundings[i..] == [fundings[i]] + fundings[i + 1..];
    var campaign := db.fundings[i];
    outcome := None;
    if campaign.status == InProcess && campaign.endDate < today {
      ghost var success := TotalInvested(db.investments, campaign.id) >= campaign.goal;
      ghost var settled := SettlementNotices(b.investments, campaign.id, success);
      if TotalInvested(db.investments, campaign.id) >= campaign.goal {
        outcome := Some(true);
        CloseCampaign(db, i, true);
      } else {
        outcome := Some(false);
        CloseCampaign(db, i, false);
      }
      assert (notices + b.notices) + settled == notices + (b.notices + settled);
      assert db.fundings == b.fundings + [Settle(campaign, success)] + fundings[i + 1..];
    }
  }

  /**
   * `Command.handle`: settles every expired campaign in table order and
   * reports how many were completed and how many failed.
   */
  method Handle(db: Store, today: Date) returns (completed: nat, failed: nat)
    modifies db
    ensures var b := Run(old(db.fundings), old(db.investments), today);
      && db.fundings == b.fundings && db.investments == b.investments
      && db.notifications == old(db.notifications) + b.notices
      && completed == b.completed && failed == b.failed
    ensures db.companies == old(db.companies) && db.milestones == old(db.milestones)
    ensures old(db.Valid()) ==> db.Valid()
  {
    ghost var fundings, investments, notices := db.fundings, db.investments, db.notifications;
    completed, failed := 0, 0;
    var i := 0;
    ghost var b := Run(fundings[..0], investments, today);
    while i < |db.fundings|
      invariant 0 <= i <= |db.fundings| == |fundings|
      invariant b == Run(fundings[..i], investments, today)
      invariant db.fundings == b.fundings + fundings[i..]
      invariant db.investments == b.investments
      invariant db.notifications == notices + b.notices
      invariant completed == b.completed && failed == b.failed
      invariant db.companies == old(db.companies) && db.milestones == old(db.milestones)
    {
      RunExtend(fundings, investments, today, i);
      var outcome := SettleNext(db, i, today, fundings, notices, b);
      if outcome == Some(true) {
        completed := completed + 1;
      } else if outcome == Some(false) {
        failed := failed + 1;
      }
      b := Step(b, fundings[i], today);
      i := i + 1;
    }
    assert fundings[..i] == fundings;
    if ReferencesExist(db.companies, fundings, investments, db.milestones, notices) {
      RunKeepsReferences(db.companies, fundings, investments, db.milestones, notices, today);
    }
  }
}

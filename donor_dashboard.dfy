/** The donor's dashboard: the history as the client receives it, each
    donation with its campaign filled in by the server's populate step, and
    the figures computed from it (total donated, campaigns supported,
    average donation). */
module DonorDashboard {
  import opened Common
  import opened CampaignSchema
  import opened DonationSchema
  import DonationController

  const FetchFailedMessage: string := "Failed to fetch donation history"

  /** A donation of the history with its campaign populated; None when the
      campaign no longer exists, since populate then yields null. */
  datatype HistoryEntry = HistoryEntry(donation: Donation, campaign: Option<Campaign>)

  /** The populate step of getDonationHistory over the stored campaigns. */
  function Populate(cs: map<CampaignId, Campaign>, ds: seq<Donation>): (h: seq<HistoryEntry>)
    ensures |h| == |ds|
    ensures forall i :: 0 <= i < |ds| ==>
      && h[i].donation == ds[i]
      && (h[i].campaign.Some? <==> ds[i].campaignId in cs)
      && (h[i].campaign.Some? ==> h[i].campaign.value == cs[ds[i].campaignId])
  {
    seq(|ds|, i requires 0 <= i < |ds| =>
      HistoryEntry(ds[i], if ds[i].campaignId in cs then Some(cs[ds[i].campaignId]) else None))
  }

  // ---------------------------------------------------------------------
  // totalDonated

  /** `donations.reduce((sum, donation) => sum + donation.amount, 0)`. */
  function TotalDonated(h: seq<HistoryEntry>): real
    decreases |h|
  {
    if h == [] then 0.0 else TotalDonated(h[..|h| - 1]) + h[|h| - 1].donation.amount
  }

  /** Populating does not change the sum: it is the sum of the donations. */
  lemma {:induction false} TotalDonatedOfPopulate(cs: map<CampaignId, Campaign>, ds: seq<Donation>)
    ensures TotalDonated(Populate(cs, ds)) == Total(ds)
    decreases |ds|
  {
    if ds != [] {
      var init := ds[..|ds| - 1];
      TotalDonatedOfPopulate(cs, init);
      assert Populate(cs, ds)[..|ds| - 1] == Populate(cs, init);
    }
  }

  /** The dashboard's total is the sum of every donation the donor ever
      made, as the ledger holds them, deleted campaigns included. */
  lemma TotalDonatedIsDonorsLedgerSum(cs: map<CampaignId, Campaign>, ds: seq<Donation>, donor: UserId)
    ensures TotalDonated(Populate(cs, DonationController.DonationHistory(ds, donor)))
         == Total(Filter(ds, (d: Donation) => d.donorId == donor))
  {
    var mine := Filter(ds, (d: Donation) => d.donorId == donor);
    TotalDonatedOfPopulate(cs, DonationController.DonationHistory(ds, donor));
    TotalReverse(mine);
  }

  /** Every donation is at least 1, so the total is at least the number of
      donations. */
  lemma {:induction false} TotalDonatedAtLeastCount(h: seq<HistoryEntry>)
    requires forall i :: 0 <= i < |h| ==> h[i].donation.amount >= MinDonationAmount
    ensures TotalDonated(h) >= |h| as real
    decreases |h|
  {
    if h != [] {
      TotalDonatedAtLeastCount(h[..|h| - 1]);
    }
  }

  // ---------------------------------------------------------------------
  // campaignsSupported

  /** The ids of the populated campaigns of the history. */
  function SupportedIds(h: seq<HistoryEntry>): set<CampaignId> {
    set i | 0 <= i < |h| && h[i].campaign.Some? :: h[i].campaign.value.id
  }

  /** Each entry adds at most one id. */
  lemma {:induction false} SupportedIdsAtMostCount(h: seq<HistoryEntry>)
    ensures |SupportedIds(h)| <= |h|
    decreases |h|
  {
    if h != [] {
      var init := h[..|h| - 1];
      var last := h[|h| - 1];
      SupportedIdsAtMostCount(init);
      var extra: set<CampaignId> := if last.campaign.Some? then {last.campaign.value.id} else {};
      assert SupportedIds(h) == SupportedIds(init) + extra by {
        forall id | id in SupportedIds(h) ensures id in SupportedIds(init) + extra {
          var i :| 0 <= i < |h| && h[i].campaign.Some? && h[i].campaign.value.id == id;
          if i < |h| - 1 {
            assert init[i] == h[i];
          }
        }
        forall id | id in SupportedIds(init) ensures id in SupportedIds(h) {
          var i :| 0 <= i < |init| && init[i].campaign.Some? && init[i].campaign.value.id == id;
          assert h[i] == init[i];
        }
      }
    }
  }

  /** The number of different campaigns the donor has supported, counting
      the campaigns that still exist: an entry whose campaign was deleted is
      skipped instead of read. */
  function CampaignsSupported(h: seq<HistoryEntry>): (n: nat)
    ensures n <= |h|
    ensures h != [] && (forall i :: 0 <= i < |h| ==> h[i].campaign.Some?) ==> n >= 1
  {
    SupportedIdsAtMostCount(h);
    assert h != [] && h[0].campaign.Some? ==> h[0].campaign.value.id in SupportedIds(h);
    |SupportedIds(h)|
  }

  /** In a store whose records sit under their own ids, the count is the
      number of distinct campaigns, still stored, that the donations went
      to. */
  lemma SupportedAreLiveCampaigns(cs: map<CampaignId, Campaign>, ds: seq<Donation>)
    requires forall id :: id in cs ==> cs[id].id == id
    ensures SupportedIds(Populate(cs, ds)) == set i | 0 <= i < |ds| && ds[i].campaignId in cs :: ds[i].campaignId
  {
  }

  /** `new Set(donations.map(d => d.campaignId._id)).size` as written: once
      a populated campaign is null, reading its `_id` throws and the page
      fails to render (None). */
  function CampaignsSupportedAsWritten(h: seq<HistoryEntry>): (n: Option<nat>)
    ensures n.None? <==> exists i :: 0 <= i < |h| && h[i].campaign.None?
    ensures n.Some? ==> n.value == CampaignsSupported(h)
  {
    if exists i :: 0 <= i < |h| && h[i].campaign.None? then None
    else Some(|SupportedIds(h)|)
  }

  /** Deleting a campaign keeps its donations, so a donor who gave to it
      gets a history entry without a campaign, and the as-written count
      fails where the corrected count reports no surviving campaign. */
  lemma DeletedCampaignBreaksCount(c: Campaign, donor: UserId, amount: real, at: int)
    ensures var before := map[c.id := c];
      var after := before - {c.id};
      var ds := [Donation(0, donor, c.id, amount, at)];
      var h := DonationController.DonationHistory(ds, donor);
      && CampaignsSupportedAsWritten(Populate(before, h)) == Some(1)
      && CampaignsSupportedAsWritten(Populate(after, h)).None?
      && CampaignsSupported(Populate(after, h)) == 0
  {
    var before := map[c.id := c];
    var after := before - {c.id};
    var d := Donation(0, donor, c.id, amount, at);
    var h := DonationController.DonationHistory([d], donor);
    assert d in h;
    assert h == [d];
    assert SupportedIds(Populate(before, h)) == {c.id};
    assert SupportedIds(Populate(after, h)) == {};
  }

  // ---------------------------------------------------------------------
  // averageDonation

  /** `donations.length > 0 ? totalDonated / donations.length : 0`, not
      rounded. */
  function AverageDonation(h: seq<HistoryEntry>): (a: real)
    ensures |h| > 0 ==> a * |h| as real == TotalDonated(h)
    ensures h == [] ==> a == 0.0
  {
    DonationController.Average(TotalDonated(h), |h|)
  }

  /** Since every donation is at least 1, so is the average of a non-empty
      history. */
  lemma AverageAtLeastMinimum(h: seq<HistoryEntry>)
    requires h != []
    requires forall i :: 0 <= i < |h| ==> h[i].donation.amount >= MinDonationAmount
    ensures AverageDonation(h) >= MinDonationAmount
  {
    TotalDonatedAtLeastCount(h);
  }

  /** The donor's average is not rounded, while the NGO statistics round
      theirs to the cent: donations of 1, 1 and 2 average to 4/3 here and
      to 1.33 there. */
  lemma AverageNotRounded(d: Donation)
    requires d.amount == 1.0
    ensures var h := [HistoryEntry(d, None), HistoryEntry(d, None), HistoryEntry(d.(amount := 2.0), None)];
      && AverageDonation(h) == 4.0 / 3.0
      && DonationController.RoundCents(AverageDonation(h)) == 1.33
      && AverageDonation(h) != 1.33
  {
    var h := [HistoryEntry(d, None), HistoryEntry(d, None), HistoryEntry(d.(amount := 2.0), None)];
    assert TotalDonated(h[..1]) == 1.0 by {
      assert h[..1][..0] == [];
    }
    assert TotalDonated(h[..2]) == 2.0 by {
      assert h[..2][..1] == h[..1];
    }
    assert TotalDonated(h) == 4.0 by {
      assert h[..|h| - 1] == h[..2];
    }
    var x := 4.0 / 3.0;
    assert 133.0 <= x * 100.0 + 0.5 < 134.0;
    assert (x * 100.0 + 0.5).Floor == 133;
  }
}

/** The read side of the donation controller: a donor's history, the
    donations of one campaign for its owner, and the statistics an NGO sees
    over all donations to its campaigns. Each reads the store's campaigns and
    its append-only donation list, which is kept in the order the donations
    were made. */
module DonationController {
  import opened Common
  import opened CampaignSchema
  import opened DonationSchema

  const NotAuthorizedToView: string := "Not authorized to view donations for this campaign"
  const RecentLimit: nat := 10

  /** Strictly increasing donation times: the order the store keeps. */
  ghost predicate Chronological(ds: seq<Donation>) {
    forall i, j :: 0 <= i < j < |ds| ==> ds[i].donatedAt < ds[j].donatedAt
  }

  /** `.sort({ donatedAt: -1 })`: strictly decreasing donation times. */
  ghost predicate NewestFirst(ds: seq<Donation>) {
    forall i, j :: 0 <= i < j < |ds| ==> ds[i].donatedAt > ds[j].donatedAt
  }

  /** A filter keeps the store's order. */
  lemma {:induction false} FilterChronological(ds: seq<Donation>, keep: Donation -> bool)
    requires Chronological(ds)
    ensures Chronological(Filter(ds, keep))
    decreases |ds|
  {
    if ds != [] {
      var init := ds[..|ds| - 1];
      var last := ds[|ds| - 1];
      FilterChronological(init, keep);
      var f := Filter(init, keep);
      forall i | 0 <= i < |f| ensures f[i].donatedAt < last.donatedAt {
        assert f[i] in init;
        var k :| 0 <= k < |init| && init[k] == f[i];
      }
    }
  }

  /** Reversing a chronological list puts the newest first. */
  lemma ReverseNewestFirst(ds: seq<Donation>)
    requires Chronological(ds)
    ensures NewestFirst(Reverse(ds))
  {
    var r := Reverse(ds);
    forall i, j | 0 <= i < j < |r| ensures r[i].donatedAt > r[j].donatedAt {
      assert r[i] == ds[|ds| - 1 - i] && r[j] == ds[|ds| - 1 - j];
    }
  }

  // ---------------------------------------------------------------------
  // getDonationHistory

  /** getDonationHistory: the caller's own donations, newest first. */
  function DonationHistory(ds: seq<Donation>, donor: UserId): (r: seq<Donation>)
    ensures |r| <= |ds|
    ensures forall d :: d in r <==> d in ds && d.donorId == donor
  {
    var mine := Filter(ds, (d: Donation) => d.donorId == donor);
    assert forall d :: d in Reverse(mine) <==> d in mine by {
      forall d ensures d in Reverse(mine) <==> d in mine {
        if d in mine {
          var k :| 0 <= k < |mine| && mine[k] == d;
          assert Reverse(mine)[|mine| - 1 - k] == d;
        }
      }
    }
    Reverse(mine)
  }

  /** The history is sorted newest first. */
  lemma DonationHistoryNewestFirst(ds: seq<Donation>, donor: UserId)
    requires Chronological(ds)
    ensures NewestFirst(DonationHistory(ds, donor))
  {
    var keep := (d: Donation) => d.donorId == donor;
    FilterChronological(ds, keep);
    ReverseNewestFirst(Filter(ds, keep));
  }

  // ---------------------------------------------------------------------
  // getDonationsForCampaign

  /** ForCampaign is the filter on the campaign reference. */
  lemma {:induction false} ForCampaignIsFilter(ds: seq<Donation>, cid: CampaignId, keep: Donation -> bool)
    requires forall d :: keep(d) <==> d.campaignId == cid
    ensures ForCampaign(ds, cid) == Filter(ds, keep)
    decreases |ds|
  {
    if ds != [] {
      ForCampaignIsFilter(ds[..|ds| - 1], cid, keep);
    }
  }

  /** getDonationsForCampaign: 404 when the campaign does not exist, 403 when
      the caller does not own it, otherwise all its donations, newest
      first. */
  function DonationsForCampaign(cs: map<CampaignId, Campaign>, ds: seq<Donation>,
                                caller: UserId, cid: CampaignId): (r: Reply<seq<Donation>>)
    ensures cid !in cs ==> r == Fail(NotFound("Campaign not found"))
    ensures cid in cs && cs[cid].createdBy != caller ==> r == Fail(Forbidden(NotAuthorizedToView))
    ensures r.Ok? <==> cid in cs && cs[cid].createdBy == caller
    ensures r.Ok? ==> forall d :: d in r.value <==> d in ds && d.campaignId == cid
  {
    if cid !in cs then Fail(NotFound("Campaign not found"))
    else if cs[cid].createdBy != caller then Fail(Forbidden(NotAuthorizedToView))
    else
      var theirs := ForCampaign(ds, cid);
      assert forall d :: d in Reverse(theirs) <==> d in theirs by {
        forall d ensures d in Reverse(theirs) <==> d in theirs {
          if d in theirs {
            var k :| 0 <= k < |theirs| && theirs[k] == d;
            assert Reverse(theirs)[|theirs| - 1 - k] == d;
          }
        }
      }
      Ok(Reverse(theirs))
  }

  /** The campaign's donations come newest first, and they add up to what the
      ledger says the campaign has raised. */
  lemma DonationsForCampaignOrderAndSum(cs: map<CampaignId, Campaign>, ds: seq<Donation>,
                                        caller: UserId, cid: CampaignId)
    requires Chronological(ds)
    requires DonationsForCampaign(cs, ds, caller, cid).Ok?
    ensures NewestFirst(DonationsForCampaign(cs, ds, caller, cid).value)
    ensures Total(DonationsForCampaign(cs, ds, caller, cid).value) == Raised(ds, cid)
  {
    var keep := (d: Donation) => d.campaignId == cid;
    ForCampaignIsFilter(ds, cid, keep);
    FilterChronological(ds, keep);
    ReverseNewestFirst(ForCampaign(ds, cid));
    TotalReverse(ForCampaign(ds, cid));
  }

  // ---------------------------------------------------------------------
  // getDonationStats

  /** A donation whose campaign is in `cs` and belongs to `owner`. */
  predicate OwnedBy(cs: map<CampaignId, Campaign>, owner: UserId, d: Donation) {
    d.campaignId in cs && cs[d.campaignId].createdBy == owner
  }

  /** `Donation.find({ campaignId: { $in: campaignIds } })` for the ids of
      the owner's campaigns: the matching donations in stored order. */
  function OwnedDonations(cs: map<CampaignId, Campaign>, ds: seq<Donation>, owner: UserId): (r: seq<Donation>)
    ensures |r| <= |ds|
    ensures forall d :: d in r <==> d in ds && OwnedBy(cs, owner, d)
    ensures forall i :: 0 <= i < |r| ==> r[i].campaignId in cs
  {
    var r := Filter(ds, (d: Donation) => OwnedBy(cs, owner, d));
    assert forall i :: 0 <= i < |r| ==> r[i] in r;
    r
  }

  /** Every donation's campaign reference resolves to a stored campaign, so
      `donation.campaignId.title` can be read. */
  ghost predicate Resolved(cs: map<CampaignId, Campaign>, ds: seq<Donation>) {
    forall i :: 0 <= i < |ds| ==> ds[i].campaignId in cs
  }

  /** One entry of `donationsByCampaign`: a campaign title with the number
      and the sum of the donations made under it. */
  datatype TitleGroup = TitleGroup(title: string, count: nat, total: real)

  /** The body of the forEach: find the entry for `title`, creating
      {count: 0, total: 0} at the end when there is none, then count the
      donation and add its amount. The entries form an association list in
      insertion order. A JavaScript object keeps that order for its string
      keys but lists keys that read as array indices ("2024") first, in
      numeric order; the list does not model that reordering. */
  function AddToGroups(gs: seq<TitleGroup>, title: string, amount: real): (r: seq<TitleGroup>)
    ensures |r| == |gs| || |r| == |gs| + 1
  {
    if gs == [] then [TitleGroup(title, 1, amount)]
    else if gs[0].title == title then [gs[0].(count := gs[0].count + 1, total := gs[0].total + amount)] + gs[1..]
    else [gs[0]] + AddToGroups(gs[1..], title, amount)
  }

  /** What the forEach has built after the donations of `ds`. */
  function Groups(cs: map<CampaignId, Campaign>, ds: seq<Donation>): seq<TitleGroup>
    requires Resolved(cs, ds)
    decreases |ds|
  {
    if ds == [] then []
    else
      var d := ds[|ds| - 1];
      AddToGroups(Groups(cs, ds[..|ds| - 1]), cs[d.campaignId].title, d.amount)
  }

  function Titles(gs: seq<TitleGroup>): (ts: seq<string>)
    ensures |ts| == |gs| && forall i :: 0 <= i < |gs| ==> ts[i] == gs[i].title
  {
    if gs == [] then [] else [gs[0].title] + Titles(gs[1..])
  }

  ghost predicate DistinctTitles(gs: seq<TitleGroup>) {
    forall i, j :: 0 <= i < j < |gs| ==> gs[i].title != gs[j].title
  }

  function SumCounts(gs: seq<TitleGroup>): nat {
    if gs == [] then 0 else gs[0].count + SumCounts(gs[1..])
  }

  function SumTotals(gs: seq<TitleGroup>): real {
    if gs == [] then 0.0 else gs[0].total + SumTotals(gs[1..])
  }

  /** The count recorded under `title`, 0 when it has no entry. */
  function CountOf(gs: seq<TitleGroup>, title: string): nat {
    if gs == [] then 0 else if gs[0].title == title then gs[0].count else CountOf(gs[1..], title)
  }

  /** The total recorded under `title`, 0 when it has no entry. */
  function TotalOf(gs: seq<TitleGroup>, title: string): real {
    if gs == [] then 0.0 else if gs[0].title == title then gs[0].total else TotalOf(gs[1..], title)
  }

  /** In the entry list a new title goes to the end and a known one keeps
      its place. */
  lemma {:induction false} AddToGroupsTitles(gs: seq<TitleGroup>, title: string, amount: real)
    ensures Titles(AddToGroups(gs, title, amount))
         == if title in Titles(gs) then Titles(gs) else Titles(gs) + [title]
    decreases |gs|
  {
    if gs != [] {
      var tail := gs[1..];
      assert Titles(gs) == [gs[0].title] + Titles(tail);
      if gs[0].title != title {
        AddToGroupsTitles(tail, title, amount);
        assert AddToGroups(gs, title, amount)[1..] == AddToGroups(tail, title, amount);
      } else {
        assert AddToGroups(gs, title, amount)[1..] == tail;
      }
    }
  }

  /** One step keeps the titles distinct. */
  lemma AddToGroupsDistinct(gs: seq<TitleGroup>, title: string, amount: real)
    requires DistinctTitles(gs)
    ensures DistinctTitles(AddToGroups(gs, title, amount))
  {
    var r := AddToGroups(gs, title, amount);
    AddToGroupsTitles(gs, title, amount);
    forall i, j | 0 <= i < j < |r| ensures r[i].title != r[j].title {
      assert r[i].title == Titles(r)[i] && r[j].title == Titles(r)[j];
      if j < |gs| {
        assert Titles(gs)[i] == gs[i].title && Titles(gs)[j] == gs[j].title;
      } else {
        assert Titles(r)[j] == title && Titles(gs)[i] == gs[i].title;
      }
    }
  }

  /** One step adds exactly one to the counts and the amount to the
      totals. */
  lemma {:induction false} AddToGroupsSums(gs: seq<TitleGroup>, title: string, amount: real)
    ensures SumCounts(AddToGroups(gs, title, amount)) == SumCounts(gs) + 1
    ensures SumTotals(AddToGroups(gs, title, amount)) == SumTotals(gs) + amount
    decreases |gs|
  {
    if gs != [] {
      var r := AddToGroups(gs, title, amount);
      if gs[0].title != title {
        AddToGroupsSums(gs[1..], title, amount);
        assert r[1..] == AddToGroups(gs[1..], title, amount);
      } else {
        assert r[1..] == gs[1..];
      }
    }
  }

  /** One step counts the donation and adds its amount under `title` and
      under no other title. */
  lemma {:induction false} AddToGroupsLookup(gs: seq<TitleGroup>, title: string, amount: real, t: string)
    ensures CountOf(AddToGroups(gs, title, amount), t) == CountOf(gs, t) + (if t == title then 1 else 0)
    ensures TotalOf(AddToGroups(gs, title, amount), t) == TotalOf(gs, t) + (if t == title then amount else 0.0)
    decreases |gs|
  {
    if gs != [] {
      var r := AddToGroups(gs, title, amount);
      if gs[0].title != title {
        AddToGroupsLookup(gs[1..], title, amount, t);
        assert r[1..] == AddToGroups(gs[1..], title, amount);
      } else {
        assert r[1..] == gs[1..];
      }
    }
  }

  /** One step adds exactly one to the counts and the amount to the totals,
      all of it under `title`; a new title goes to the end and the titles
      stay distinct. */
  lemma AddToGroupsStep(gs: seq<TitleGroup>, title: string, amount: real)
    requires DistinctTitles(gs)
    ensures var r := AddToGroups(gs, title, amount);
      && DistinctTitles(r)
      && SumCounts(r) == SumCounts(gs) + 1
      && SumTotals(r) == SumTotals(gs) + amount
      && Titles(r) == (if title in Titles(gs) then Titles(gs) else Titles(gs) + [title])
      && (forall t :: CountOf(r, t) == CountOf(gs, t) + (if t == title then 1 else 0))
      && (forall t :: TotalOf(r, t) == TotalOf(gs, t) + (if t == title then amount else 0.0))
  {
    AddToGroupsTitles(gs, title, amount);
    AddToGroupsDistinct(gs, title, amount);
    AddToGroupsSums(gs, title, amount);
    forall t
      ensures CountOf(AddToGroups(gs, title, amount), t) == CountOf(gs, t) + (if t == title then 1 else 0)
      ensures TotalOf(AddToGroups(gs, title, amount), t) == TotalOf(gs, t) + (if t == title then amount else 0.0)
    {
      AddToGroupsLookup(gs, title, amount, t);
    }
  }

  /** The donations of `ds` made to a campaign titled `title`, in order. */
  function Titled(cs: map<CampaignId, Campaign>, ds: seq<Donation>, title: string): (r: seq<Donation>)
    requires Resolved(cs, ds)
    ensures forall d :: d in r <==> d in ds && cs[d.campaignId].title == title
    decreases |ds|
  {
    if ds == [] then []
    else
      var d := ds[|ds| - 1];
      Titled(cs, ds[..|ds| - 1], title) + (if cs[d.campaignId].title == title then [d] else [])
  }

  /** One entry per distinct title, whose counts add up to the number of
      donations and whose totals add up to their sum. */
  lemma {:induction false} GroupsAddUp(cs: map<CampaignId, Campaign>, ds: seq<Donation>)
    requires Resolved(cs, ds)
    ensures DistinctTitles(Groups(cs, ds))
    ensures SumCounts(Groups(cs, ds)) == |ds|
    ensures SumTotals(Groups(cs, ds)) == Total(ds)
    decreases |ds|
  {
    if ds != [] {
      var init := ds[..|ds| - 1];
      var d := ds[|ds| - 1];
      GroupsAddUp(cs, init);
      AddToGroupsStep(Groups(cs, init), cs[d.campaignId].title, d.amount);
    }
  }

  /** The entry for a title counts and sums exactly the donations made to
      campaigns with that title (0 for a title without donations). */
  lemma {:induction false} GroupsPerTitle(cs: map<CampaignId, Campaign>, ds: seq<Donation>, t: string)
    requires Resolved(cs, ds)
    ensures CountOf(Groups(cs, ds), t) == |Titled(cs, ds, t)|
    ensures TotalOf(Groups(cs, ds), t) == Total(Titled(cs, ds, t))
    decreases |ds|
  {
    if ds != [] {
      var init := ds[..|ds| - 1];
      var d := ds[|ds| - 1];
      var title := cs[d.campaignId].title;
      GroupsPerTitle(cs, init, t);
      GroupsAddUp(cs, init);
      AddToGroupsStep(Groups(cs, init), title, d.amount);
      var ti := Titled(cs, init, t);
      if t == title {
        assert Titled(cs, ds, t) == ti + [d];
        assert (ti + [d])[..|ti|] == ti;
      } else {
        assert Titled(cs, ds, t) == ti + [];
        assert ti + [] == ti;
      }
    }
  }

  /** A title has an entry exactly when some donation went to a campaign
      with that title. */
  lemma {:induction false} GroupsCoverTitles(cs: map<CampaignId, Campaign>, ds: seq<Donation>)
    requires Resolved(cs, ds)
    ensures forall t :: t in Titles(Groups(cs, ds)) <==> exists i :: 0 <= i < |ds| && cs[ds[i].campaignId].title == t
    decreases |ds|
  {
    if ds != [] {
      var init := ds[..|ds| - 1];
      var d := ds[|ds| - 1];
      GroupsCoverTitles(cs, init);
      GroupsAddUp(cs, init);
      AddToGroupsStep(Groups(cs, init), cs[d.campaignId].title, d.amount);
      forall t | t in Titles(Groups(cs, ds))
        ensures exists i :: 0 <= i < |ds| && cs[ds[i].campaignId].title == t
      {
        if t != cs[d.campaignId].title {
          var i :| 0 <= i < |init| && cs[init[i].campaignId].title == t;
          assert ds[i] == init[i];
        }
      }
      forall t | exists i :: 0 <= i < |ds| && cs[ds[i].campaignId].title == t
        ensures t in Titles(Groups(cs, ds))
      {
        var i :| 0 <= i < |ds| && cs[ds[i].campaignId].title == t;
        if i < |init| {
          assert init[i] == ds[i];
        }
      }
    }
  }

  /** `Math.round(x * 100) / 100`: the nearest multiple of 0.01, halves
      rounded up. */
  function RoundCents(x: real): (r: real)
    ensures x - 0.005 < r <= x + 0.005
    ensures (r * 100.0).Floor as real == r * 100.0
  {
    var k := (x * 100.0 + 0.5).Floor;
    assert k as real <= x * 100.0 + 0.5 < k as real + 1.0;
    k as real / 100.0
  }

  /** A value already in whole cents is left as it is. */
  lemma RoundCentsOfCents(k: int)
    ensures RoundCents(k as real / 100.0) == k as real / 100.0
  {
    var x := k as real / 100.0;
    assert x * 100.0 + 0.5 == k as real + 0.5;
    assert (x * 100.0 + 0.5).Floor == k;
  }

  /** `totalDonations > 0 ? totalAmount / totalDonations : 0`. */
  function Average(total: real, count: nat): (a: real)
    ensures count > 0 ==> a * count as real == total
    ensures count == 0 ==> a == 0.0
  {
    if count > 0 then total / count as real else 0.0
  }

  /** The response of getDonationStats. */
  datatype Stats = Stats(
    totalDonations: nat,
    totalAmount: real,
    averageDonation: real,
    donationsByCampaign: seq<TitleGroup>,
    recentDonations: seq<Donation>)

  /** getDonationStats for `owner`: the owner's donations counted, summed,
      averaged to the cent and grouped by campaign title with the forEach
      loop; the recent list is the first ten of them as the query returned
      them, that is in stored order. */
  method GetDonationStats(cs: map<CampaignId, Campaign>, ds: seq<Donation>, owner: UserId) returns (s: Stats)
    ensures var owned := OwnedDonations(cs, ds, owner);
      && s.totalDonations == |owned|
      && s.totalAmount == Total(owned)
      && s.averageDonation == RoundCents(Average(Total(owned), |owned|))
      && s.donationsByCampaign == Groups(cs, owned)
      && s.recentDonations == Take(owned, RecentLimit)
  {
    var owned := OwnedDonations(cs, ds, owner);
    var totalAmount := 0.0;
    var groups: seq<TitleGroup> := [];
    var i := 0;
    while i < |owned|
      invariant 0 <= i <= |owned|
      invariant totalAmount == Total(owned[..i])
      invariant groups == Groups(cs, owned[..i])
    {
      var d := owned[i];
      assert owned[..i + 1][..i] == owned[..i];
      groups := AddToGroups(groups, cs[d.campaignId].title, d.amount);
      totalAmount := totalAmount + d.amount;
      i := i + 1;
    }
    assert owned[..|owned|] == owned;
    var average := Average(totalAmount, |owned|);
    s := Stats(|owned|, totalAmount, RoundCents(average), groups, Take(owned, RecentLimit));
  }

  /** What the statistics report, in the owner's terms: the per-title
      entries add up to the reported count and sum, the average lies within
      half a cent of the exact one and is 0 without donations, and the recent
      list holds at most ten of the owner's donations. */
  lemma StatsConsistent(cs: map<CampaignId, Campaign>, ds: seq<Donation>, owner: UserId)
    ensures var owned := OwnedDonations(cs, ds, owner);
      && SumCounts(Groups(cs, owned)) == |owned|
      && SumTotals(Groups(cs, owned)) == Total(owned)
      && DistinctTitles(Groups(cs, owned))
    ensures var owned := OwnedDonations(cs, ds, owner);
      owned == [] ==> RoundCents(Average(Total(owned), |owned|)) == 0.0 && Groups(cs, owned) == []
    ensures var owned := OwnedDonations(cs, ds, owner);
      var recent := Take(owned, RecentLimit);
      |recent| <= RecentLimit && forall d :: d in recent ==> d in ds && OwnedBy(cs, owner, d)
  {
    var owned := OwnedDonations(cs, ds, owner);
    GroupsAddUp(cs, owned);
    if owned == [] {
      RoundCentsOfCents(0);
      assert 0 as real / 100.0 == 0.0;
    }
    var recent := Take(owned, RecentLimit);
    forall d | d in recent ensures d in owned {
      var k :| 0 <= k < |recent| && recent[k] == d;
      assert owned[k] == d;
    }
  }
}

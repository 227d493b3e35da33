/** The NGO's dashboard: its campaigns and donation statistics, loaded
    together; deleting a campaign after confirmation, which drops it from
    the local list and reloads the statistics; and the first few recent
    donations it shows. */
module NgoDashboard {
  import opened Common
  import opened ClientCommon
  import opened CampaignSchema
  import opened DonationSchema
  import opened CampaignController
  import opened DonationController

  const FetchFailedMessage: string := "Failed to fetch dashboard data"
  const DeleteFailedMessage: string := "Failed to delete campaign"
  const RecentShownLimit: nat := 5

  // ---------------------------------------------------------------------
  // The campaign list

  /** `campaigns.filter(c => c._id !== campaignId)`. */
  function RemoveCampaign(cs: seq<Campaign>, id: CampaignId): (r: seq<Campaign>)
    ensures |r| <= |cs|
    ensures forall c :: c in r <==> c in cs && c.id != id
  {
    Filter(cs, (c: Campaign) => c.id != id)
  }

  /** How many entries of the list carry id `id`. */
  function IdCount(cs: seq<Campaign>, id: CampaignId): nat
    decreases |cs|
  {
    if cs == [] then 0
    else IdCount(cs[..|cs| - 1], id) + (if cs[|cs| - 1].id == id then 1 else 0)
  }

  lemma {:induction false} IdCountZero(cs: seq<Campaign>, id: CampaignId)
    ensures IdCount(cs, id) == 0 <==> forall i :: 0 <= i < |cs| ==> cs[i].id != id
    decreases |cs|
  {
    if cs != [] {
      var init := cs[..|cs| - 1];
      IdCountZero(init, id);
      assert forall i :: 0 <= i < |init| ==> init[i] == cs[i];
    }
  }

  /** Removing takes out exactly the entries with that id. */
  lemma {:induction false} RemoveCampaignCount(cs: seq<Campaign>, id: CampaignId)
    ensures |RemoveCampaign(cs, id)| == |cs| - IdCount(cs, id)
    decreases |cs|
  {
    if cs != [] {
      RemoveCampaignCount(cs[..|cs| - 1], id);
    }
  }

  predicate DistinctIds(cs: seq<Campaign>) {
    forall i, j :: 0 <= i < j < |cs| ==> cs[i].id != cs[j].id
  }

  lemma {:induction false} IdCountDistinct(cs: seq<Campaign>, id: CampaignId)
    requires DistinctIds(cs)
    ensures IdCount(cs, id) <= 1
    decreases |cs|
  {
    if cs != [] {
      var init := cs[..|cs| - 1];
      IdCountDistinct(init, id);
      if cs[|cs| - 1].id == id {
        IdCountZero(init, id);
      }
    }
  }

  /** After a successful delete the list is the old list without that
      campaign, in the same order: one entry shorter when the campaign was
      listed (the list holds each campaign once), unchanged otherwise. */
  lemma RemoveListedCampaign(cs: seq<Campaign>, id: CampaignId)
    requires DistinctIds(cs)
    ensures (exists i :: 0 <= i < |cs| && cs[i].id == id) ==> |RemoveCampaign(cs, id)| == |cs| - 1
    ensures (forall i :: 0 <= i < |cs| ==> cs[i].id != id) ==> RemoveCampaign(cs, id) == cs
  {
    RemoveCampaignCount(cs, id);
    IdCountZero(cs, id);
    IdCountDistinct(cs, id);
    if forall i :: 0 <= i < |cs| ==> cs[i].id != id {
      FilterAll(cs, (c: Campaign) => c.id != id);
    }
  }

  /** The list the server sends holds each of the owner's campaigns once:
      in a store whose records sit under their own ids, a scan meets every id
      once. */
  lemma {:induction false} ScanDistinct(m: map<CampaignId, Campaign>, keep: Campaign -> bool, n: nat)
    requires forall id :: id in m ==> m[id].id == id
    ensures DistinctIds(Scan(m, keep, n))
    ensures forall i :: 0 <= i < |Scan(m, keep, n)| ==> Scan(m, keep, n)[i].id < n
    decreases n
  {
    if n > 0 {
      var id := n - 1;
      var rest := Scan(m, keep, id);
      ScanDistinct(m, keep, id);
      var head: seq<Campaign> := if id in m && keep(m[id]) then [m[id]] else [];
      var r := head + rest;
      assert Scan(m, keep, n) == r;
      forall i | 0 <= i < |r| ensures r[i].id < n {
        if i >= |head| {
          assert r[i] == rest[i - |head|];
        }
      }
      forall i, j | 0 <= i < j < |r| ensures r[i].id != r[j].id {
        assert r[j] == rest[j - |head|];
        if i >= |head| {
          assert r[i] == rest[i - |head|];
        }
      }
    }
  }

  /** The stored ids below `n` whose records `keep` accepts. */
  function AcceptedIds(m: map<CampaignId, Campaign>, keep: Campaign -> bool, n: nat): set<CampaignId> {
    set id | 0 <= id < n && id in m && keep(m[id])
  }

  /** Raising the bound by one adds the id below it when that record is
      accepted. */
  lemma AcceptedIdsStep(m: map<CampaignId, Campaign>, keep: Campaign -> bool, n: nat)
    requires n > 0
    ensures |AcceptedIds(m, keep, n)| == |AcceptedIds(m, keep, n - 1)| + (if n - 1 in m && keep(m[n - 1]) then 1 else 0)
  {
    var below := AcceptedIds(m, keep, n - 1);
    var extra: set<CampaignId> := if n - 1 in m && keep(m[n - 1]) then {n - 1} else {};
    assert AcceptedIds(m, keep, n) == below + extra by {
      forall id | id in AcceptedIds(m, keep, n) ensures id in below + extra {
        if id < n - 1 {
          assert id in below;
        }
      }
    }
    assert below * extra == {};
  }

  /** The number of records a scan returns is the number of stored ids it
      accepts. */
  lemma {:induction false} ScanCount(m: map<CampaignId, Campaign>, keep: Campaign -> bool, n: nat)
    ensures |Scan(m, keep, n)| == |AcceptedIds(m, keep, n)|
    decreases n
  {
    if n > 0 {
      ScanCount(m, keep, n - 1);
      AcceptedIdsStep(m, keep, n);
    } else {
      assert AcceptedIds(m, keep, n) == {};
    }
  }

  /** The Total Campaigns card counts every campaign the owner has in the
      store exactly once. */
  lemma TotalCampaignsCountsOwned(m: map<CampaignId, Campaign>, n: nat, owner: UserId)
    requires forall id :: id in m ==> 0 <= id < n && m[id].id == id
    ensures |GetCampaignsByNgo(m, n, owner)| == |set id | id in m && m[id].createdBy == owner|
    ensures DistinctIds(GetCampaignsByNgo(m, n, owner))
  {
    var keep := (c: Campaign) => c.createdBy == owner;
    ScanCount(m, keep, n);
    ScanDistinct(m, keep, n);
    assert AcceptedIds(m, keep, n) == set id | id in m && m[id].createdBy == owner;
  }

  // ---------------------------------------------------------------------
  // Recent donations

  /** `stats.recentDonations.slice(0, 5)`, shown only when the list is
      non-empty. */
  function RecentShown(stats: Option<Stats>): (r: seq<Donation>)
    ensures |r| <= RecentShownLimit
    ensures r != [] <==> stats.Some? && stats.value.recentDonations != []
    ensures stats.Some? ==>
      forall i :: 0 <= i < |r| ==> i < |stats.value.recentDonations| && r[i] == stats.value.recentDonations[i]
  {
    if stats.Some? && |stats.value.recentDonations| > 0 then Take(stats.value.recentDonations, RecentShownLimit)
    else []
  }

  /** With the statistics the server computes, the dashboard shows the first
      five of the owner's donations in stored order, that is the five
      earliest. */
  lemma RecentShownAreEarliest(cs: map<CampaignId, Campaign>, ds: seq<Donation>, owner: UserId, s: Stats)
    requires s.recentDonations == Take(OwnedDonations(cs, ds, owner), RecentLimit)
    ensures RecentShown(Some(s)) == Take(OwnedDonations(cs, ds, owner), RecentShownLimit)
  {
  }

  // ---------------------------------------------------------------------
  // The page

  /** The dashboard page; the server's replies are parameters. */
  class NgoDashboardPage {
    var campaigns: seq<Campaign>
    var stats: Option<Stats>
    var error: string
    var alerts: seq<string>
    var deleteRequests: seq<CampaignId>

    constructor ()
      ensures campaigns == [] && stats.None? && error == "" && alerts == [] && deleteRequests == []
    {
      campaigns := [];
      stats := None;
      error := "";
      alerts := [];
      deleteRequests := [];
    }

    /** `fetchData`: both requests must succeed (Promise.all); otherwise
        neither list nor statistics change and the page shows the fetch
        error. */
    method FetchData(campaignsReply: Response<seq<Campaign>>, statsReply: Response<Stats>)
      modifies this
      ensures alerts == old(alerts) && deleteRequests == old(deleteRequests)
      ensures campaignsReply.Success? && statsReply.Success? ==>
        campaigns == campaignsReply.data && stats == Some(statsReply.data) && error == old(error)
      ensures campaignsReply.Failure? || statsReply.Failure? ==>
        campaigns == old(campaigns) && stats == old(stats) && error == FetchFailedMessage
    {
      if campaignsReply.Success? && statsReply.Success? {
        campaigns := campaignsReply.data;
        stats := Some(statsReply.data);
      } else {
        error := FetchFailedMessage;
      }
    }

    /** `handleDeleteCampaign`: nothing happens unless the user confirms.
        A failed delete alerts and changes nothing; a successful one drops
        the campaign from the list and reloads the statistics, and a failed
        reload alerts the same message. */
    method HandleDeleteCampaign(id: CampaignId, confirmed: bool,
                                deleteReply: Response<string>, statsReply: Response<Stats>)
      modifies this
      ensures error == old(error)
      ensures !confirmed ==>
        && campaigns == old(campaigns) && stats == old(stats)
        && alerts == old(alerts) && deleteRequests == old(deleteRequests)
      ensures confirmed ==> deleteRequests == old(deleteRequests) + [id]
      ensures confirmed && deleteReply.Failure? ==>
        campaigns == old(campaigns) && stats == old(stats) && alerts == old(alerts) + [DeleteFailedMessage]
      ensures confirmed && deleteReply.Success? ==>
        && campaigns == RemoveCampaign(old(campaigns), id)
        && (statsReply.Success? ==> stats == Some(statsReply.data) && alerts == old(alerts))
        && (statsReply.Failure? ==> stats == old(stats) && alerts == old(alerts) + [DeleteFailedMessage])
    {
      if !confirmed {
        return;
      }
      deleteRequests := deleteRequests + [id];
      if deleteReply.Failure? {
        alerts := alerts + [DeleteFailedMessage];
        return;
      }
      campaigns := RemoveCampaign(campaigns, id);
      match statsReply {
        case Success(s) => stats := Some(s);
        case Failure(_) => alerts := alerts + [DeleteFailedMessage];
      }
    }
  }
}

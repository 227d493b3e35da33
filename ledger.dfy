/** The store behind both controllers and the operations that change it:
    createCampaign, updateCampaign and deleteCampaign from the campaign
    controller, and makeDonation, the funding ledger, from the donation
    controller. Each method runs to completion on its own; campaign ids come
    from a counter and every new record is stamped from a clock that only
    moves forward, so creation order, id order and timestamp order agree. */
module Ledger {
  import opened Common
  import opened CampaignSchema
  import opened DonationSchema
  import opened CampaignController

  const CampaignNotFound: string := "Campaign not found"
  const CampaignNotActive: string := "Campaign is not active"
  const NotAuthorizedToUpdate: string := "Not authorized to update this campaign"
  const NotAuthorizedToDelete: string := "Not authorized to delete this campaign"
  const CampaignDeleted: string := "Campaign deleted successfully"

  /** What every stored campaign satisfies. */
  predicate StoredCampaign(id: CampaignId, c: Campaign, nextId: nat, clock: int) {
    && 0 <= id < nextId
    && c.id == id
    && WellFormed(c)
    && IsTrimmed(c.title)
    && c.createdAt < clock
  }

  /** What every stored donation satisfies; `k` is its position. */
  predicate StoredDonation(k: nat, d: Donation, nextId: nat, clock: int) {
    && d.id == k
    && 0 <= d.campaignId < nextId
    && d.amount >= MinDonationAmount
    && d.donatedAt < clock
  }

  /** The store's structural invariant, on values. */
  ghost predicate Consistent(cs: map<CampaignId, Campaign>, ds: seq<Donation>, nextId: nat, clock: int) {
    && (forall id :: id in cs ==> StoredCampaign(id, cs[id], nextId, clock))
    && CreatedInIdOrder(cs)
    && (forall k :: 0 <= k < |ds| ==> StoredDonation(k, ds[k], nextId, clock))
    && (forall k, l :: 0 <= k < l < |ds| ==> ds[k].donatedAt < ds[l].donatedAt)
  }

  /** The ledger invariant, on values: each campaign's raisedAmount is the
      sum of the amounts of the donations recorded against it. */
  ghost predicate LedgerBalanced(cs: map<CampaignId, Campaign>, ds: seq<Donation>) {
    forall id :: id in cs ==> cs[id].raisedAmount == Raised(ds, id)
  }

  /** Storing a new record under the next id, stamped with the current time,
      keeps the store consistent; with nothing raised it keeps it balanced. */
  lemma InsertKeepsInvariants(cs: map<CampaignId, Campaign>, ds: seq<Donation>, nextId: nat, clock: int, c: Campaign)
    requires Consistent(cs, ds, nextId, clock)
    requires c.id == nextId && WellFormed(c) && IsTrimmed(c.title) && c.createdAt == clock
    ensures nextId !in cs
    ensures Consistent(cs[nextId := c], ds, nextId + 1, clock + 1)
    ensures LedgerBalanced(cs, ds) && c.raisedAmount == 0.0 ==> LedgerBalanced(cs[nextId := c], ds)
  {
    var cs' := cs[nextId := c];
    forall id | id in cs' ensures StoredCampaign(id, cs'[id], nextId + 1, clock + 1) {
      if id != nextId {
        assert StoredCampaign(id, cs[id], nextId, clock);
      }
    }
    forall k | 0 <= k < |ds| ensures StoredDonation(k, ds[k], nextId + 1, clock + 1) && ds[k].campaignId != nextId {
      assert StoredDonation(k, ds[k], nextId, clock);
    }
    forall i, j | i in cs' && j in cs' && i < j ensures cs'[i].createdAt < cs'[j].createdAt {
      assert StoredCampaign(i, cs[i], nextId, clock);
    }
    RaisedOfUnused(ds, nextId);
  }

  /** A request the schema accepts builds a record that can be stored: it
      is well formed, its title is trimmed and it has raised nothing. */
  lemma AcceptedRequestIsStorable(req: CreateRequest, id: CampaignId, caller: UserId, now: int)
    requires CreateViolations(req) == []
    ensures req.goalAmount.Some?
    ensures var c := NewCampaign(id, req.title, req.description, req.category,
                                 req.goalAmount.value, caller, now);
      WellFormed(c) && IsTrimmed(c.title) && c.id == id && c.createdAt == now && c.raisedAmount == 0.0
  {
    NewCampaignDefaults(0, req.title, req.description, req.category, req.goalAmount.value, 0, 0);
    NewCampaignDefaults(id, req.title, req.description, req.category, req.goalAmount.value, caller, now);
  }

  /** Replacing a stored record by one with the same id, creation time and
      raised amount keeps both invariants. */
  lemma ReplaceKeepsInvariants(cs: map<CampaignId, Campaign>, ds: seq<Donation>, nextId: nat, clock: int,
                               id: CampaignId, u: Campaign)
    requires Consistent(cs, ds, nextId, clock) && id in cs
    requires u.id == id && u.createdAt == cs[id].createdAt && WellFormed(u) && IsTrimmed(u.title)
    ensures Consistent(cs[id := u], ds, nextId, clock)
    ensures LedgerBalanced(cs, ds) && u.raisedAmount == cs[id].raisedAmount ==> LedgerBalanced(cs[id := u], ds)
  {
    var cs' := cs[id := u];
    assert StoredCampaign(id, cs[id], nextId, clock);
    forall i | i in cs' ensures StoredCampaign(i, cs'[i], nextId, clock) {
      if i != id {
        assert StoredCampaign(i, cs[i], nextId, clock);
      }
    }
  }

  /** Removing a record keeps both invariants. */
  lemma RemoveKeepsInvariants(cs: map<CampaignId, Campaign>, ds: seq<Donation>, nextId: nat, clock: int, id: CampaignId)
    requires Consistent(cs, ds, nextId, clock)
    ensures Consistent(cs - {id}, ds, nextId, clock)
    ensures LedgerBalanced(cs, ds) ==> LedgerBalanced(cs - {id}, ds)
  {
    var cs' := cs - {id};
    forall i | i in cs' ensures StoredCampaign(i, cs'[i], nextId, clock) {
      assert StoredCampaign(i, cs[i], nextId, clock);
    }
  }

  /** Appending a donation stamped with the current time keeps the store
      consistent, and moves exactly its own campaign's ledger sum. */
  lemma AppendKeepsConsistent(cs: map<CampaignId, Campaign>, ds: seq<Donation>, nextId: nat, clock: int, d: Donation)
    requires Consistent(cs, ds, nextId, clock)
    requires d.id == |ds| && d.campaignId in cs && d.amount >= MinDonationAmount && d.donatedAt == clock
    ensures Consistent(cs, ds + [d], nextId, clock + 1)
    ensures forall id :: Raised(ds + [d], id) == Raised(ds, id) + (if id == d.campaignId then d.amount else 0.0)
  {
    var ds' := ds + [d];
    assert StoredCampaign(d.campaignId, cs[d.campaignId], nextId, clock);
    forall id | id in cs ensures StoredCampaign(id, cs[id], nextId, clock + 1) {
      assert StoredCampaign(id, cs[id], nextId, clock);
    }
    forall k | 0 <= k < |ds'| ensures StoredDonation(k, ds'[k], nextId, clock + 1) {
      if k < |ds| {
        assert StoredDonation(k, ds[k], nextId, clock);
      }
    }
    forall k, l | 0 <= k < l < |ds'| ensures ds'[k].donatedAt < ds'[l].donatedAt {
      assert StoredDonation(k, ds[k], nextId, clock);
    }
    forall id ensures Raised(ds', id) == Raised(ds, id) + (if id == d.campaignId then d.amount else 0.0) {
      RaisedAppend(ds, d, id);
    }
  }

  /** `campaign.raisedAmount += amount`. */
  function Credited(c: Campaign, amount: real): (u: Campaign)
    ensures u.raisedAmount == c.raisedAmount + amount
    ensures u == c.(raisedAmount := u.raisedAmount)
  {
    c.(raisedAmount := c.raisedAmount + amount)
  }

  /** A recorded donation balances the ledger again exactly when its amount
      is added to its campaign's raised amount: with the addition the
      invariant holds, without it (the failed save) it does not. */
  lemma DonationMovesLedger(cs: map<CampaignId, Campaign>, ds: seq<Donation>, d: Donation)
    requires d.campaignId in cs && d.amount >= MinDonationAmount
    ensures LedgerBalanced(cs, ds) ==>
      LedgerBalanced(cs[d.campaignId := Credited(cs[d.campaignId], d.amount)], ds + [d])
    ensures LedgerBalanced(cs, ds) ==> !LedgerBalanced(cs, ds + [d])
  {
    if LedgerBalanced(cs, ds) {
      var cs' := cs[d.campaignId := Credited(cs[d.campaignId], d.amount)];
      forall id | id in cs' ensures cs'[id].raisedAmount == Raised(ds + [d], id) {
        RaisedAppend(ds, d, id);
      }
      RaisedAppend(ds, d, d.campaignId);
    }
  }

  class Store {
    var campaigns: map<CampaignId, Campaign>
    var donations: seq<Donation>
    var nextCampaignId: nat
    var clock: int

    /** The structural invariant every operation keeps. */
    ghost predicate Valid()
      reads this
    {
      Consistent(campaigns, donations, nextCampaignId, clock)
    }

    /** The ledger invariant: each campaign's raisedAmount is the sum of the
        amounts of the donations recorded against it. */
    ghost predicate Balanced()
      reads this
    {
      LedgerBalanced(campaigns, donations)
    }

    constructor ()
      ensures Valid() && Balanced()
      ensures campaigns == map[] && donations == []
    {
      campaigns := map[];
      donations := [];
      nextCampaignId := 0;
      clock := 0;
    }

    /** createCampaign: the record is built from the request with the caller
        as its owner, nothing raised and status 'active'; it is stored when
        the schema accepts it, otherwise the validation error becomes a 500
        and nothing is stored. */
    method CreateCampaign(caller: UserId, req: CreateRequest) returns (r: Reply<Campaign>)
      requires Valid()
      modifies this
      ensures Valid()
      ensures old(Balanced()) ==> Balanced()
      ensures donations == old(donations)
      ensures var vs := CreateViolations(req);
        if vs != [] then
          && r == Fail(Internal(CampaignSchema.ValidationMessage(vs))) && campaigns == old(campaigns)
          && nextCampaignId == old(nextCampaignId) && clock == old(clock)
        else
          var c := NewCampaign(old(nextCampaignId), req.title, req.description, req.category,
                               req.goalAmount.value, caller, old(clock));
          && r == Ok(c)
          && old(nextCampaignId) !in old(campaigns)
          && campaigns == old(campaigns)[old(nextCampaignId) := c]
          && nextCampaignId == old(nextCampaignId) + 1 && clock == old(clock) + 1
    {
      var vs := CreateViolations(req);
      if vs != [] {
        return Fail(Internal(CampaignSchema.ValidationMessage(vs)));
      }
      AcceptedRequestIsStorable(req, nextCampaignId, caller, clock);
      var c := NewCampaign(nextCampaignId, req.title, req.description, req.category,
                           req.goalAmount.value, caller, clock);
      Insert(c);
      r := Ok(c);
    }

    /** Stores a new record under the next id, stamped with the current
        time, and moves both counters on. */
    method Insert(c: Campaign)
      requires Valid()
      requires c.id == nextCampaignId && c.createdAt == clock && WellFormed(c) && IsTrimmed(c.title)
      modifies this
      ensures Valid()
      ensures old(Balanced()) && c.raisedAmount == 0.0 ==> Balanced()
      ensures old(nextCampaignId) !in old(campaigns)
      ensures campaigns == old(campaigns)[old(nextCampaignId) := c] && donations == old(donations)
      ensures nextCampaignId == old(nextCampaignId) + 1 && clock == old(clock) + 1
    {
      InsertKeepsInvariants(campaigns, donations, nextCampaignId, clock, c);
      campaigns, nextCampaignId, clock := campaigns[nextCampaignId := c], nextCampaignId + 1, clock + 1;
    }

    /** updateCampaign: 404 for a missing campaign, then 403 for a caller
        who does not own it, in both cases changing nothing; otherwise the
        truthy fields of the patch are merged in and the record is saved if
        the schema accepts it (a rejected save is a 500 and changes
        nothing). The raised amount, the owner and the donations are never
        touched, and the goal may end up below the raised amount. */
    method UpdateCampaign(caller: UserId, id: CampaignId, patch: CampaignPatch) returns (r: Reply<Campaign>)
      requires Valid()
      modifies this
      ensures Valid()
      ensures old(Balanced()) ==> Balanced()
      ensures donations == old(donations) && nextCampaignId == old(nextCampaignId) && clock == old(clock)
      ensures id !in old(campaigns) ==>
        r == Fail(NotFound(CampaignNotFound)) && campaigns == old(campaigns)
      ensures id in old(campaigns) && old(campaigns)[id].createdBy != caller ==>
        r == Fail(Forbidden(NotAuthorizedToUpdate)) && campaigns == old(campaigns)
      ensures id in old(campaigns) && old(campaigns)[id].createdBy == caller ==>
        var u := Merge(old(campaigns)[id], patch);
        if WellFormed(u) then
          r == Ok(u) && campaigns == old(campaigns)[id := u]
        else
          r == Fail(Internal(CampaignSchema.ValidationMessage(CampaignViolations(u))))
          && campaigns == old(campaigns)
    {
      if id !in campaigns {
        return Fail(NotFound(CampaignNotFound));
      }
      var c := campaigns[id];
      if c.createdBy != caller {
        return Fail(Forbidden(NotAuthorizedToUpdate));
      }
      var u := Merge(c, patch);
      if !WellFormed(u) {
        return Fail(Internal(CampaignSchema.ValidationMessage(CampaignViolations(u))));
      }
      MergeKeepsTitleTrimmed(c, patch);
      ReplaceKeepsInvariants(campaigns, donations, nextCampaignId, clock, id, u);
      campaigns := campaigns[id := u];
      r := Ok(u);
    }

    /** deleteCampaign: 404, then 403, as for update; otherwise only that
        campaign's record is removed and its donations stay in the store. */
    method DeleteCampaign(caller: UserId, id: CampaignId) returns (r: Reply<string>)
      requires Valid()
      modifies this
      ensures Valid()
      ensures old(Balanced()) ==> Balanced()
      ensures donations == old(donations) && nextCampaignId == old(nextCampaignId) && clock == old(clock)
      ensures id !in old(campaigns) ==>
        r == Fail(NotFound(CampaignNotFound)) && campaigns == old(campaigns)
      ensures id in old(campaigns) && old(campaigns)[id].createdBy != caller ==>
        r == Fail(Forbidden(NotAuthorizedToDelete)) && campaigns == old(campaigns)
      ensures id in old(campaigns) && old(campaigns)[id].createdBy == caller ==>
        r == Ok(CampaignDeleted) && campaigns == old(campaigns) - {id}
    {
      if id !in campaigns {
        return Fail(NotFound(CampaignNotFound));
      }
      if campaigns[id].createdBy != caller {
        return Fail(Forbidden(NotAuthorizedToDelete));
      }
      RemoveKeepsInvariants(campaigns, donations, nextCampaignId, clock, id);
      campaigns := campaigns - {id};
      r := Ok(CampaignDeleted);
    }

    /** The writes of makeDonation once the request has passed its checks:
        Donation.create appends the record, then the campaign's raised amount
        grows by the donated amount and is saved, unless that save fails. */
    method RecordDonation(d: Donation, saveError: Option<string>) returns (r: Reply<Donation>)
      requires Valid()
      requires d.id == |donations| && d.campaignId in campaigns
      requires d.amount >= MinDonationAmount && d.donatedAt == clock
      modifies this
      ensures Valid()
      ensures nextCampaignId == old(nextCampaignId) && clock == old(clock) + 1
      ensures donations == old(donations) + [d]
      ensures saveError.Some? ==> r == Fail(Internal(saveError.value)) && campaigns == old(campaigns)
      ensures saveError.None? ==> r == Ok(d) && campaigns == old(campaigns)[d.campaignId := Credited(old(campaigns)[d.campaignId], d.amount)]
      ensures old(Balanced()) ==> (Balanced() <==> r.Ok?)
    {
      AppendKeepsConsistent(campaigns, donations, nextCampaignId, clock, d);
      DonationMovesLedger(campaigns, donations, d);
      donations, clock := donations + [d], clock + 1;
      match saveError {
        case Some(msg) =>
          r := Fail(Internal(msg));
        case None =>
          SaveCredit(d.campaignId, d.amount);
          r := Ok(d);
      }
    }

    /** `campaign.raisedAmount += amount; campaign.save()`: only that
        campaign's raised amount changes. */
    method SaveCredit(id: CampaignId, amount: real)
      requires Valid() && id in campaigns && amount >= 0.0
      modifies this
      ensures Valid()
      ensures campaigns == old(campaigns)[id := Credited(old(campaigns)[id], amount)]
      ensures donations == old(donations) && nextCampaignId == old(nextCampaignId) && clock == old(clock)
    {
      var u := Credited(campaigns[id], amount);
      ReplaceKeepsInvariants(campaigns, donations, nextCampaignId, clock, id, u);
      campaigns := campaigns[id := u];
    }

    /** makeDonation, the funding ledger. A missing campaign is a 404 and an
        inactive one a 400, both changing nothing. Otherwise the donation
        {caller, campaign, amount} is validated and appended first (an amount
        missing or below 1 is a 500 and nothing is written); then the
        campaign's raisedAmount grows by exactly the amount and is saved.
        When that save fails (`saveError`), the donation stays, the raised
        amount is not saved and the reply is a 500: nothing rolls back. */
    method MakeDonation(caller: UserId, campaignId: CampaignId, amount: Option<real>,
                        saveError: Option<string>) returns (r: Reply<Donation>)
      requires Valid()
      modifies this
      ensures Valid()
      ensures nextCampaignId == old(nextCampaignId)
      ensures clock == old(clock) + (|donations| - |old(donations)|)
      ensures campaignId !in old(campaigns) ==>
        && r == Fail(NotFound(CampaignNotFound))
        && campaigns == old(campaigns) && donations == old(donations)
      ensures campaignId in old(campaigns) && old(campaigns)[campaignId].status != "active" ==>
        && r == Fail(BadRequest(CampaignNotActive))
        && campaigns == old(campaigns) && donations == old(donations)
      ensures campaignId in old(campaigns) && old(campaigns)[campaignId].status == "active" ==>
        var vs := DonationViolations(Some(caller), Some(campaignId), amount);
        if vs != [] then
          && r == Fail(Internal(DonationSchema.ValidationMessage(vs)))
          && campaigns == old(campaigns) && donations == old(donations)
        else
          var d := Donation(|old(donations)|, caller, campaignId, amount.value, old(clock));
          var c := old(campaigns)[campaignId];
          && donations == old(donations) + [d]
          && match saveError
             case Some(msg) => r == Fail(Internal(msg)) && campaigns == old(campaigns)
             case None =>
               && r == Ok(d)
               && campaigns == old(campaigns)[campaignId := Credited(c, amount.value)]
      ensures old(Balanced()) && (r.Ok? || donations == old(donations)) ==> Balanced()
      ensures old(Balanced()) && r.Fail? && donations != old(donations) ==> !Balanced()
    {
      if campaignId !in campaigns {
        return Fail(NotFound(CampaignNotFound));
      }
      var c := campaigns[campaignId];
      if c.status != "active" {
        return Fail(BadRequest(CampaignNotActive));
      }
      var vs := DonationViolations(Some(caller), Some(campaignId), amount);
      if vs != [] {
        return Fail(Internal(DonationSchema.ValidationMessage(vs)));
      }
      var d := Donation(|donations|, caller, campaignId, amount.value, clock);
      r := RecordDonation(d, saveError);
    }
  }
}

/** The donation record, the constraints its schema declares, and what a list
    of donation records adds up to. */
module DonationSchema {
  import opened Common

  const MinDonationAmount: real := 1.0

  /** An append-only fact: who gave how much to which campaign, and when. */
  datatype Donation = Donation(
    id: nat,
    donorId: UserId,
    campaignId: CampaignId,
    amount: real,
    donatedAt: int)

  datatype Violation = DonorRequired | CampaignRequired | AmountRequired | AmountTooSmall
  {
    /** The schema path the validator belongs to. */
    function Path(): string {
      match this
      case DonorRequired => "donorId"
      case CampaignRequired => "campaignId"
      case AmountRequired | AmountTooSmall => "amount"
    }

    function Message(): string {
      match this
      case DonorRequired => "Path `donorId` is required."
      case CampaignRequired => "Path `campaignId` is required."
      case AmountRequired => "Donation amount is required"
      case AmountTooSmall => "Donation amount must be at least 1"
    }
  }

  /** The schema validator run by Donation.create: both references must be
      present and the amount present and at least 1. Nothing bounds the
      amount from above or ties it to a campaign's goal. */
  function DonationViolations(donorId: Option<UserId>, campaignId: Option<CampaignId>,
                              amount: Option<real>): (vs: seq<Violation>)
    ensures vs == [] <==> donorId.Some? && campaignId.Some? && amount.Some? && amount.value >= MinDonationAmount
    ensures AmountTooSmall in vs <==> amount.Some? && amount.value < MinDonationAmount
    ensures AmountRequired in vs <==> amount.None?
    ensures |vs| <= 3
  {
    (if donorId.None? then [DonorRequired] else [])
    + (if campaignId.None? then [CampaignRequired] else [])
    + (match amount
       case None => [AmountRequired]
       case Some(a) => if a < MinDonationAmount then [AmountTooSmall] else [])
  }

  /** The text of the error a failed validation throws: the model's name,
      then "path: message" for each failing path, separated by commas. */
  function ValidationMessage(vs: seq<Violation>): (m: string)
    ensures StartsWith(m, "Donation validation failed: ")
    ensures |vs| == 1 ==> m == "Donation validation failed: " + vs[0].Path() + ": " + vs[0].Message()
  {
    var prefix := "Donation validation failed: ";
    var m := prefix + Join(Messages(vs), ", ");
    assert m[..|prefix|] == prefix;
    m
  }

  /** "path: message" for each violation, in order. */
  function Messages(vs: seq<Violation>): seq<string> {
    seq(|vs|, i requires 0 <= i < |vs| => vs[i].Path() + ": " + vs[i].Message())
  }

  // ---------------------------------------------------------------------
  // Sums over donation lists

  /** `reduce((sum, d) => sum + d.amount, 0)`. */
  function Total(ds: seq<Donation>): (t: real)
    ensures (forall i :: 0 <= i < |ds| ==> ds[i].amount >= 0.0) ==> t >= 0.0
    decreases |ds|
  {
    if ds == [] then 0.0 else Total(ds[..|ds| - 1]) + ds[|ds| - 1].amount
  }

  lemma {:induction false} TotalAppend(a: seq<Donation>, b: seq<Donation>)
    ensures Total(a + b) == Total(a) + Total(b)
    decreases |b|
  {
    if b == [] {
      assert a + b == a;
    } else {
      var b' := b[..|b| - 1];
      assert (a + b)[..|a + b| - 1] == a + b';
      assert (a + b)[|a + b| - 1] == b[|b| - 1];
      TotalAppend(a, b');
    }
  }

  /** The sum does not depend on the order of the list. */
  lemma {:induction false} TotalReverse(ds: seq<Donation>)
    ensures Total(Reverse(ds)) == Total(ds)
    decreases |ds|
  {
    if ds != [] {
      var init := ds[..|ds| - 1];
      TotalReverse(init);
      assert Reverse(ds) == [ds[|ds| - 1]] + Reverse(init);
      TotalAppend([ds[|ds| - 1]], Reverse(init));
      assert Total([ds[|ds| - 1]]) == ds[|ds| - 1].amount by {
        assert [ds[|ds| - 1]][..0] == [];
      }
    }
  }

  /** When every amount is at least 1 (as the schema enforces), the total is
      at least the number of donations, so it is never negative. */
  lemma {:induction false} TotalAtLeastCount(ds: seq<Donation>)
    requires forall i :: 0 <= i < |ds| ==> ds[i].amount >= MinDonationAmount
    ensures Total(ds) >= |ds| as real
    decreases |ds|
  {
    if ds != [] {
      TotalAtLeastCount(ds[..|ds| - 1]);
    }
  }

  /** The donations recorded against campaign `cid`, in stored order. */
  function ForCampaign(ds: seq<Donation>, cid: CampaignId): (r: seq<Donation>)
    ensures |r| <= |ds|
    ensures forall d :: d in r <==> d in ds && d.campaignId == cid
    decreases |ds|
  {
    if ds == [] then []
    else ForCampaign(ds[..|ds| - 1], cid)
         + (if ds[|ds| - 1].campaignId == cid then [ds[|ds| - 1]] else [])
  }

  /** What the ledger says campaign `cid` has raised: the sum of the amounts of
      its donations. */
  function Raised(ds: seq<Donation>, cid: CampaignId): real {
    Total(ForCampaign(ds, cid))
  }

  /** Appending a donation adds its amount to its own campaign's sum and
      changes no other campaign's sum. */
  lemma RaisedAppend(ds: seq<Donation>, d: Donation, cid: CampaignId)
    ensures Raised(ds + [d], cid) == Raised(ds, cid) + (if d.campaignId == cid then d.amount else 0.0)
  {
    assert (ds + [d])[..|ds|] == ds;
    if d.campaignId == cid {
      TotalAppend(ForCampaign(ds, cid), [d]);
      assert Total([d]) == d.amount by {
        assert [d][..0] == [];
      }
    } else {
      assert ForCampaign(ds + [d], cid) == ForCampaign(ds, cid) + [];
      assert ForCampaign(ds, cid) + [] == ForCampaign(ds, cid);
    }
  }

  /** No donation recorded against a campaign means nothing raised. */
  lemma {:induction false} RaisedOfUnused(ds: seq<Donation>, cid: CampaignId)
    requires forall i :: 0 <= i < |ds| ==> ds[i].campaignId != cid
    ensures Raised(ds, cid) == 0.0
    decreases |ds|
  {
    if ds != [] {
      var init := ds[..|ds| - 1];
      RaisedOfUnused(init, cid);
      assert ds == init + [ds[|ds| - 1]];
      RaisedAppend(init, ds[|ds| - 1], cid);
    }
  }
}

/** The campaign page of the client: who may donate, who owns the campaign,
    what remains to be raised, and the donate dialog that validates the
    amount, sends the donation and reloads the campaign. */
module CampaignDetail {
  import opened Common
  import opened ClientCommon
  import opened CampaignSchema
  import opened DonationSchema
  import opened AuthContext
  import AuthMiddleware

  const InvalidAmountMessage: string := "Please enter a valid donation amount"
  const DonationFailedMessage: string := "Failed to process donation"
  const FetchFailedMessage: string := "Failed to fetch campaign details"

  /** `canDonate`: a logged-in donor looking at an active campaign. */
  predicate CanDonate(isAuthenticated: bool, user: Option<Account>, c: Campaign) {
    isAuthenticated && user.Some? && user.value.role == "donor" && c.status == "active"
  }

  /** `isOwner`: the logged-in NGO that created the campaign. */
  predicate IsOwner(isAuthenticated: bool, user: Option<Account>, c: Campaign) {
    isAuthenticated && user.Some? && user.value.role == "ngo" && c.createdBy == user.value.id
  }

  /** Nobody sees both the donate card and the owner's controls. */
  lemma DonorIsNeverOwner(isAuthenticated: bool, user: Option<Account>, c: Campaign)
    ensures !(CanDonate(isAuthenticated, user, c) && IsOwner(isAuthenticated, user, c))
  {
  }

  /** The donate card is shown to exactly the users the server lets donate
      to this campaign: the donor gate passes for them and the campaign is
      active, and it is hidden from everyone the server would refuse on role
      or status. */
  lemma CanDonateAgreesWithServer(user: Account, c: Campaign)
    ensures var u := AuthMiddleware.User(user.id, user.name, user.email, user.role);
      CanDonate(true, Some(user), c) <==> AuthMiddleware.DonorOnly(Some(u)).None? && c.status == "active"
  {
  }

  /** `goalAmount - raisedAmount`, not clamped. */
  function Remaining(c: Campaign): (r: real)
    ensures r <= 0.0 <==> c.raisedAmount >= c.goalAmount
  {
    c.goalAmount - c.raisedAmount
  }

  /** What remains is negative exactly when the campaign is over-funded, and
      nothing remains exactly when the progress bar is full. */
  lemma RemainingAndProgress(c: Campaign)
    requires c.goalAmount >= MinGoalAmount && c.raisedAmount >= MinRaisedAmount
    ensures Remaining(c) < 0.0 <==> c.raisedAmount > c.goalAmount
    ensures Remaining(c) <= 0.0 <==> ProgressPercentage(c) == 100.0
    ensures Remaining(c) > 0.0 ==> ProgressPercentage(c) < 100.0
  {
    ProgressBounds(c);
  }

  /** `!donationAmount || parseFloat(donationAmount) <= 0`. */
  function AmountError(amount: NumberText): (e: Option<string>)
    ensures e.None? <==> amount.Filled() && amount.value > 0.0
    ensures e.Some? ==> e.value == InvalidAmountMessage
  {
    if !amount.Filled() || amount.value <= 0.0 then Some(InvalidAmountMessage) else None
  }

  /** The dialog's guard is weaker than the schema: every amount the server
      accepts passes it, but an amount between 0 and 1 passes it and is then
      refused by the server's validation. */
  lemma AmountGuardWeakerThanSchema(a: real, donor: UserId, cid: CampaignId)
    ensures a >= MinDonationAmount ==> AmountError(Numeric(a)).None?
    ensures 0.0 < a < MinDonationAmount ==>
      AmountError(Numeric(a)).None? && DonationViolations(Some(donor), Some(cid), Some(a)) == [AmountTooSmall]
  {
    if 0.0 < a < MinDonationAmount {
      var vs := DonationViolations(Some(donor), Some(cid), Some(a));
      assert vs == [] + [] + [AmountTooSmall];
    }
  }

  /** The body of the donation request. */
  datatype DonationRequest = DonationRequest(campaignId: CampaignId, amount: real)

  /** The page for the campaign with id `id`; the server's replies are
      parameters. */
  class CampaignDetailPage {
    const id: CampaignId
    var campaign: Option<Campaign>
    var error: string
    var donationAmount: NumberText
    var donationError: string
    var donationLoading: bool
    var donationSuccess: bool
    var sent: seq<DonationRequest>

    constructor (id: CampaignId)
      ensures this.id == id && campaign.None? && error == "" && donationAmount == Blank
      ensures donationError == "" && !donationLoading && !donationSuccess && sent == []
    {
      this.id := id;
      campaign := None;
      error := "";
      donationAmount := Blank;
      donationError := "";
      donationLoading := false;
      donationSuccess := false;
      sent := [];
    }

    /** `fetchCampaign`: the page shows the campaign the server returns, or
        the fetch error (keeping what it showed before). */
    method FetchCampaign(reply: Response<Campaign>)
      modifies this
      ensures reply.Success? ==> campaign == Some(reply.data) && error == old(error)
      ensures reply.Failure? ==> campaign == old(campaign) && error == FetchFailedMessage
      ensures donationAmount == old(donationAmount) && donationError == old(donationError)
      ensures donationSuccess == old(donationSuccess) && donationLoading == old(donationLoading)
      ensures sent == old(sent)
    {
      match reply {
        case Success(c) => campaign := Some(c);
        case Failure(_) => error := FetchFailedMessage;
      }
    }

    /** `handleDonation`: an empty or non-positive amount sets the error and
        sends nothing. Otherwise {campaignId: id, amount} is sent; on success
        the dialog reports it, clears the amount and reloads the campaign;
        on failure it shows the server's message ('Failed to process
        donation' without one) and keeps the amount. */
    method HandleDonation(reply: Response<Donation>, reload: Response<Campaign>)
      modifies this
      ensures AmountError(old(donationAmount)).Some? ==>
        && donationError == InvalidAmountMessage && sent == old(sent)
        && donationAmount == old(donationAmount) && campaign == old(campaign) && error == old(error)
        && donationSuccess == old(donationSuccess) && donationLoading == old(donationLoading)
      ensures AmountError(old(donationAmount)).None? ==>
        && sent == old(sent) + [DonationRequest(id, old(donationAmount).value)]
        && !donationLoading
        && match reply
           case Success(_) =>
             && donationSuccess && donationAmount == Blank && donationError == ""
             && (reload.Success? ==> campaign == Some(reload.data) && error == old(error))
             && (reload.Failure? ==> campaign == old(campaign) && error == FetchFailedMessage)
           case Failure(m) =>
             && donationError == ErrorText(m, DonationFailedMessage)
             && donationAmount == old(donationAmount) && campaign == old(campaign)
             && donationSuccess == old(donationSuccess) && error == old(error)
    {
      donationError := "";
      var check := AmountError(donationAmount);
      if check.Some? {
        donationError := check.value;
        return;
      }
      donationLoading := true;
      sent := sent + [DonationRequest(id, donationAmount.value)];
      match reply {
        case Success(_) =>
          donationSuccess := true;
          donationAmount := Blank;
          FetchCampaign(reload);
        case Failure(m) =>
          donationError := ErrorText(m, DonationFailedMessage);
      }
      donationLoading := false;
    }
  }
}

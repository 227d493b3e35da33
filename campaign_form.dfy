/** The campaign forms of the client: the validation chain that create and
    edit both run before submitting, the request they send, the
    access-denied view, the ownership check made when the edit form is
    loaded, and the warning shown when the new goal is below the amount
    already raised. */
module CampaignForm {
  import opened Common
  import opened ClientCommon
  import opened CampaignSchema
  import opened CampaignController
  import opened AuthContext
  import AuthMiddleware

  const FillAllFields: string := "Please fill in all fields"
  const GoalNotPositive: string := "Goal amount must be greater than 0"
  const TitleTooLongMessage: string := "Title must be 100 characters or less"
  const DescriptionTooLongMessage: string := "Description must be 1000 characters or less"
  const NotOwnerMessage: string := "You are not authorized to edit this campaign"
  const FetchFailedMessage: string := "Failed to fetch campaign details"

  /** The fields both forms validate. */
  datatype FormFields = FormFields(title: string, description: string, category: string, goalAmount: NumberText)

  /** The checks of `handleSubmit`, in order; the first failure is the one
      reported, and None means the form is sent. The length checks compare
      `.length`, which counts UTF-16 code units. */
  function FormError(f: FormFields): (e: Option<string>)
    ensures e.None? <==>
      && f.title != "" && f.description != "" && f.category != "" && f.goalAmount.Filled()
      && f.goalAmount.value > 0.0
      && Utf16Length(f.title) <= MaxTitleLength && Utf16Length(f.description) <= MaxDescriptionLength
    ensures e == Some(FillAllFields) <==>
      f.title == "" || f.description == "" || f.category == "" || !f.goalAmount.Filled()
    ensures e == Some(GoalNotPositive) <==>
      && f.title != "" && f.description != "" && f.category != "" && f.goalAmount.Filled()
      && f.goalAmount.value <= 0.0
    ensures e == Some(TitleTooLongMessage) <==>
      && f.title != "" && f.description != "" && f.category != "" && f.goalAmount.Filled()
      && f.goalAmount.value > 0.0 && Utf16Length(f.title) > MaxTitleLength
    ensures e == Some(DescriptionTooLongMessage) <==>
      && f.title != "" && f.description != "" && f.category != "" && f.goalAmount.Filled()
      && f.goalAmount.value > 0.0 && Utf16Length(f.title) <= MaxTitleLength && Utf16Length(f.description) > MaxDescriptionLength
  {
    if f.title == "" || f.description == "" || f.category == "" || !f.goalAmount.Filled() then Some(FillAllFields)
    else if f.goalAmount.value <= 0.0 then Some(GoalNotPositive)
    else if Utf16Length(f.title) > MaxTitleLength then Some(TitleTooLongMessage)
    else if Utf16Length(f.description) > MaxDescriptionLength then Some(DescriptionTooLongMessage)
    else None
  }

  /** The form's checks and the schema's disagree: the form lets through
      a goal below 1, which the server rejects. */
  lemma FormAcceptsGoalBelowOne()
    ensures var f := FormFields("Clean water", "Wells for a village", "health", Numeric(0.5));
      FormError(f).None? && GoalViolations(Some(f.goalAmount.value)) == [GoalTooSmall]
  {
  }

  /** The form lets through a title of spaces only, which the server trims
      to nothing and rejects as missing. */
  lemma FormAcceptsBlankTitle()
    ensures var f := FormFields(" ", "Wells for a village", "health", Numeric(100.0));
      FormError(f).None? && TitleViolations(Trim(f.title)) == [TitleRequired]
  {
    assert TrimStart(" ") == "";
  }

  /** The form refuses a title that is too long only because of a trailing
      space, which the server would trim and accept. */
  lemma FormRefusesPaddedTitle(t: string)
    requires t != [] && IsTrimmed(t) && Utf16Length(t) == MaxTitleLength
    ensures FormError(FormFields(t + " ", "d", "health", Numeric(100.0))) == Some(TitleTooLongMessage)
    ensures TitleViolations(Trim(t + " ")) == []
  {
    TrimDropsTrailingSpace(t);
    Utf16LengthSpaceAppended(t);
    RefusesLongTitle(FormFields(t + " ", "d", "health", Numeric(100.0)));
  }

  /** A complete form with a positive goal and a title over the limit gets
      the title-length message. */
  lemma RefusesLongTitle(f: FormFields)
    requires f.title != "" && f.description != "" && f.category != "" && f.goalAmount.Filled()
    requires f.goalAmount.value > 0.0 && Utf16Length(f.title) > MaxTitleLength
    ensures FormError(f) == Some(TitleTooLongMessage)
  {
  }

  /** Whatever the form accepts has a positive goal, a title of at most 100
      and a description of at most 1000 characters: the server can only
      refuse it for a goal below 1, a blank-only title or an unknown
      category. */
  lemma FormAcceptedFieldsNearlyAllowed(f: FormFields)
    requires FormError(f).None?
    ensures Utf16Length(Trim(f.title)) <= MaxTitleLength
    ensures DescriptionViolations(f.description) == []
    ensures FieldsAllowed(Trim(f.title), f.description, f.category, Some(f.goalAmount.value), 0.0, "active")
      <==> Trim(f.title) != "" && f.category in Categories && f.goalAmount.value >= MinGoalAmount
  {
    TrimUtf16Length(f.title);
  }

  /** The form counts code units as the server does: a title of 51 emoji,
      each outside the Basic Multilingual Plane, is 102 units long and is
      refused, by the form and by the schema alike. */
  lemma FormCountsCodeUnits()
    ensures var t := seq(51, _ => '\U{1F600}');
      && |t| == 51 && Utf16Length(t) == 102
      && FormError(FormFields(t, "d", "health", Numeric(100.0))) == Some(TitleTooLongMessage)
      && TitleViolations(Trim(t)) == [TitleTooLong]
  {
    var t := seq(51, _ => '\U{1F600}');
    Utf16LengthUniform(t);
    assert !IsSpace(t[0]) && !IsSpace(t[|t| - 1]);
    TrimFixesTrimmed(t);
  }

  /** `{ ...formData, goalAmount: parseFloat(formData.goalAmount) }` for
      the create form. */
  function CreatePayload(f: FormFields): (req: CreateRequest)
    requires f.goalAmount.Filled()
    ensures req.title == f.title && req.description == f.description && req.category == f.category
    ensures req.goalAmount == Some(f.goalAmount.value)
  {
    CreateRequest(f.title, f.description, f.category, Some(f.goalAmount.value))
  }

  /** The same for the edit form, which also sends the status. */
  function UpdatePayload(f: FormFields, status: string): (p: CampaignPatch)
    requires f.goalAmount.Filled()
    ensures p.title == f.title && p.description == f.description && p.category == f.category
    ensures p.goalAmount == Some(f.goalAmount.value) && p.status == status
  {
    CampaignPatch(f.title, f.description, f.category, Some(f.goalAmount.value), status)
  }

  /** An accepted edit form replaces every field of the stored record the
      schema checks: every text is non-empty and the goal positive, so the
      server's truthy merge takes them all. */
  lemma AcceptedEditReplacesAll(c: Campaign, f: FormFields, status: string)
    requires FormError(f).None? && status != ""
    ensures var u := Merge(c, UpdatePayload(f, status));
      && u.title == Trim(f.title) && u.description == f.description && u.category == f.category
      && u.goalAmount == f.goalAmount.value && u.status == status
      && u.raisedAmount == c.raisedAmount && u.createdBy == c.createdBy
  {
  }

  /** Both pages show the access-denied view to anyone but an NGO user, a
      missing user included. */
  predicate AccessDenied(user: Option<Account>) {
    !(user.Some? && user.value.role == "ngo")
  }

  /** The pages turn away exactly the users the server's NGO gate refuses,
      so a user who sees a form is one the server lets write campaigns. */
  lemma AccessDeniedAgreesWithServer(user: Option<Account>)
    ensures var u := if user.Some? then Some(AuthMiddleware.User(user.value.id, user.value.name, user.value.email, user.value.role)) else None;
      AccessDenied(user) <==> AuthMiddleware.NgoOnly(u).Some?
    ensures AccessDenied(None)
  {
  }

  /** `parseFloat(formData.goalAmount) < campaign.raisedAmount`, shown as a
      warning only. */
  predicate GoalBelowRaisedWarning(campaign: Option<Campaign>, goal: NumberText) {
    campaign.Some? && goal.Filled() && goal.value < campaign.value.raisedAmount
  }

  /** The warning does not block: a form can show it and still pass every
      check, and the server then stores the lower goal. */
  lemma WarningDoesNotBlock(c: Campaign, f: FormFields)
    requires WellFormed(c) && c.raisedAmount > MinGoalAmount
    requires f == FormFields(c.title, c.description, c.category, Numeric(MinGoalAmount))
    requires IsTrimmed(c.title)
    ensures GoalBelowRaisedWarning(Some(c), f.goalAmount)
    ensures FormError(f).None?
    ensures var u := Merge(c, UpdatePayload(f, c.status));
      WellFormed(u) && u.goalAmount < u.raisedAmount
  {
    LoadedFormPasses(c);
    TrimFixesTrimmed(c.title);
    var lowered := c.(goalAmount := MinGoalAmount);
    assert Merge(c, UpdatePayload(f, c.status)) == lowered;
    GoalMayDropBelowRaised(c, MinGoalAmount);
    assert Merge(c, CampaignPatch("", "", "", Some(MinGoalAmount), "")) == lowered;
  }

  /** The create page. The request is sent only when the form passes; the
      server's reply is a parameter. */
  class CreateCampaignPage {
    var error: string
    var loading: bool
    var sent: seq<CreateRequest>
    var navigatedTo: Option<CampaignId>

    constructor ()
      ensures error == "" && !loading && sent == [] && navigatedTo.None?
    {
      error := "";
      loading := false;
      sent := [];
      navigatedTo := None;
    }

    /** `handleSubmit`: a failing check sets its message and sends nothing;
        otherwise the request is sent, and the page moves to the new
        campaign or shows the server's message ('Failed to create
        campaign' without one). */
    method HandleSubmit(f: FormFields, reply: Response<Campaign>)
      modifies this
      ensures FormError(f).Some? ==>
        && error == FormError(f).value && loading == old(loading)
        && sent == old(sent) && navigatedTo == old(navigatedTo)
      ensures FormError(f).None? ==>
        && !loading
        && sent == old(sent) + [CreatePayload(f)]
        && match reply
           case Success(c) => navigatedTo == Some(c.id) && error == ""
           case Failure(m) => navigatedTo == old(navigatedTo) && error == ErrorText(m, "Failed to create campaign")
    {
      error := "";
      var check := FormError(f);
      if check.Some? {
        error := check.value;
        return;
      }
      loading := true;
      sent := sent + [CreatePayload(f)];
      match reply {
        case Success(c) => navigatedTo := Some(c.id);
        case Failure(m) => error := ErrorText(m, "Failed to create campaign");
      }
      loading := false;
    }
  }

  /** The edit page for the campaign with id `id`. */
  class EditCampaignPage {
    const id: CampaignId
    var error: string
    var campaign: Option<Campaign>
    var form: FormFields
    var status: string
    var saving: bool
    var sent: seq<CampaignPatch>
    var navigatedTo: Option<CampaignId>

    constructor (id: CampaignId)
      ensures this.id == id && error == "" && campaign.None? && sent == [] && navigatedTo.None?
      ensures form == FormFields("", "", "", Blank) && status == "" && !saving
    {
      this.id := id;
      error := "";
      campaign := None;
      form := FormFields("", "", "", Blank);
      status := "";
      saving := false;
      sent := [];
      navigatedTo := None;
    }

    /** `fetchCampaign`: a campaign owned by someone else sets the
        authorization error and leaves the form empty; the owner's campaign
        fills it (the goal as text). A failed fetch, or no logged-in user to
        compare with, sets the fetch error. */
    method FetchCampaign(reply: Response<Campaign>, currentUser: Option<UserId>)
      modifies this
      ensures sent == old(sent) && navigatedTo == old(navigatedTo) && saving == old(saving)
      ensures reply.Failure? || currentUser.None? ==>
        error == FetchFailedMessage && campaign == old(campaign) && form == old(form) && status == old(status)
      ensures reply.Success? && currentUser.Some? && reply.data.createdBy != currentUser.value ==>
        error == NotOwnerMessage && campaign == old(campaign) && form == old(form) && status == old(status)
      ensures reply.Success? && currentUser.Some? && reply.data.createdBy == currentUser.value ==>
        var c := reply.data;
        && campaign == Some(c) && error == old(error)
        && form == FormFields(c.title, c.description, c.category, Numeric(c.goalAmount))
        && status == c.status
    {
      if reply.Failure? || currentUser.None? {
        error := FetchFailedMessage;
        return;
      }
      var c := reply.data;
      if c.createdBy != currentUser.value {
        error := NotOwnerMessage;
        return;
      }
      campaign := Some(c);
      form := FormFields(c.title, c.description, c.category, Numeric(c.goalAmount));
      status := c.status;
    }

    /** `handleSubmit`: the same checks as the create form (the status is
        not checked); then the update is sent, and the page moves to the
        campaign or shows the server's message ('Failed to update
        campaign' without one). */
    method HandleSubmit(reply: Response<Campaign>)
      modifies this
      ensures form == old(form) && campaign == old(campaign) && status == old(status)
      ensures FormError(form).Some? ==>
        && error == FormError(form).value && saving == old(saving)
        && sent == old(sent) && navigatedTo == old(navigatedTo)
      ensures FormError(form).None? ==>
        && !saving
        && sent == old(sent) + [UpdatePayload(form, status)]
        && match reply
           case Success(_) => navigatedTo == Some(id) && error == ""
           case Failure(m) => navigatedTo == old(navigatedTo) && error == ErrorText(m, "Failed to update campaign")
    {
      error := "";
      var check := FormError(form);
      if check.Some? {
        error := check.value;
        return;
      }
      saving := true;
      sent := sent + [UpdatePayload(form, status)];
      match reply {
        case Success(_) => navigatedTo := Some(id);
        case Failure(m) => error := ErrorText(m, "Failed to update campaign");
      }
      saving := false;
    }
  }

  /** A form loaded from a well-formed stored record passes the form's own
      checks unchanged. */
  lemma LoadedFormPasses(c: Campaign)
    requires WellFormed(c)
    ensures FormError(FormFields(c.title, c.description, c.category, Numeric(c.goalAmount))).None?
  {
  }
}

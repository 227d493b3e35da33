/** The campaign record and the constraints its schema declares: required,
    trimmed and bounded text fields, the category and status enumerations,
    the minimum goal and raised amounts, the defaults, and the derived
    progress percentage. */
module CampaignSchema {
  import opened Common

  const MaxTitleLength: nat := 100
  const MaxDescriptionLength: nat := 1000
  const MinGoalAmount: real := 1.0
  const MinRaisedAmount: real := 0.0
  const Categories: seq<string> := ["health", "education", "disaster", "others"]
  const Statuses: seq<string> := ["active", "closed"]
  const DefaultStatus: string := "active"
  const DefaultRaisedAmount: real := 0.0

  datatype Campaign = Campaign(
    id: CampaignId,
    title: string,
    description: string,
    category: string,
    goalAmount: real,
    raisedAmount: real,
    createdBy: UserId,
    createdAt: int,
    status: string)

  /** One failed field validator. Per field only the first failing validator
      is reported: `required` is checked before the length, enumeration or
      minimum check. */
  datatype Violation =
    | TitleRequired
    | TitleTooLong
    | DescriptionRequired
    | DescriptionTooLong
    | CategoryRequired
    | CategoryNotAllowed(category: string)
    | GoalRequired
    | GoalTooSmall
    | RaisedNegative
    | StatusNotAllowed(status: string)
  {
    /** The schema path the validator belongs to. */
    function Path(): string {
      match this
      case TitleRequired | TitleTooLong => "title"
      case DescriptionRequired | DescriptionTooLong => "description"
      case CategoryRequired | CategoryNotAllowed(_) => "category"
      case GoalRequired | GoalTooSmall => "goalAmount"
      case RaisedNegative => "raisedAmount"
      case StatusNotAllowed(_) => "status"
    }

    function Message(): string {
      match this
      case TitleRequired => "Campaign title is required"
      case TitleTooLong => "Title cannot be more than 100 characters"
      case DescriptionRequired => "Campaign description is required"
      case DescriptionTooLong => "Description cannot be more than 1000 characters"
      case CategoryRequired => "Campaign category is required"
      case CategoryNotAllowed(v) => "`" + v + "` is not a valid enum value for path `category`."
      case GoalRequired => "Goal amount is required"
      case GoalTooSmall => "Goal amount must be at least 1"
      case RaisedNegative => "Raised amount cannot be negative"
      case StatusNotAllowed(v) => "`" + v + "` is not a valid enum value for path `status`."
    }
  }

  /** The field constraints, stated directly: the reference the validator is
      checked against. */
  predicate FieldsAllowed(title: string, description: string, category: string,
                          goal: Option<real>, raised: real, status: string)
  {
    && title != "" && Utf16Length(title) <= MaxTitleLength
    && description != "" && Utf16Length(description) <= MaxDescriptionLength
    && category in Categories
    && goal.Some? && goal.value >= MinGoalAmount
    && raised >= MinRaisedAmount
    && status in Statuses
  }

  /** `maxlength` compares the string's length, which counts UTF-16 code
      units. */
  function TitleViolations(title: string): (vs: seq<Violation>)
    ensures |vs| <= 1
    ensures vs == [] <==> title != "" && Utf16Length(title) <= MaxTitleLength
    ensures vs == [TitleRequired] <==> title == ""
  {
    if title == "" then [TitleRequired]
    else if Utf16Length(title) > MaxTitleLength then [TitleTooLong] else []
  }

  function DescriptionViolations(description: string): (vs: seq<Violation>)
    ensures |vs| <= 1
    ensures vs == [] <==> description != "" && Utf16Length(description) <= MaxDescriptionLength
    ensures vs == [DescriptionRequired] <==> description == ""
  {
    if description == "" then [DescriptionRequired]
    else if Utf16Length(description) > MaxDescriptionLength then [DescriptionTooLong] else []
  }

  function CategoryViolations(category: string): (vs: seq<Violation>)
    ensures |vs| <= 1
    ensures vs == [] <==> category in Categories
    ensures vs == [CategoryRequired] <==> category == ""
  {
    if category == "" then [CategoryRequired]
    else if category !in Categories then [CategoryNotAllowed(category)] else []
  }

  function GoalViolations(goal: Option<real>): (vs: seq<Violation>)
    ensures |vs| <= 1
    ensures vs == [] <==> goal.Some? && goal.value >= MinGoalAmount
    ensures vs == [GoalRequired] <==> goal.None?
  {
    match goal
    case None => [GoalRequired]
    case Some(g) => if g < MinGoalAmount then [GoalTooSmall] else []
  }

  /** The schema validator run before a campaign is written: the violations
      in field order, at most one per field. `goal` is None when the request
      carried no goal at all. */
  function FieldViolations(title: string, description: string, category: string,
                           goal: Option<real>, raised: real, status: string): (vs: seq<Violation>)
    ensures vs == [] <==> FieldsAllowed(title, description, category, goal, raised, status)
    ensures |vs| <= 6
  {
    TitleViolations(title)
    + DescriptionViolations(description)
    + CategoryViolations(category)
    + GoalViolations(goal)
    + (if raised < MinRaisedAmount then [RaisedNegative] else [])
    + (if status !in Statuses then [StatusNotAllowed(status)] else [])
  }

  function CampaignViolations(c: Campaign): seq<Violation> {
    FieldViolations(c.title, c.description, c.category, Some(c.goalAmount), c.raisedAmount, c.status)
  }

  /** A record the schema accepts. */
  predicate WellFormed(c: Campaign) {
    FieldsAllowed(c.title, c.description, c.category, Some(c.goalAmount), c.raisedAmount, c.status)
  }

  /** The text of the error a failed validation throws: the model's name,
      then "path: message" for each failing path, separated by commas. */
  function ValidationMessage(vs: seq<Violation>): (m: string)
    ensures StartsWith(m, "Campaign validation failed: ")
    ensures |vs| == 1 ==> m == "Campaign validation failed: " + vs[0].Path() + ": " + vs[0].Message()
  {
    var prefix := "Campaign validation failed: ";
    var m := prefix + Join(Messages(vs), ", ");
    assert m[..|prefix|] == prefix;
    m
  }

  /** "path: message" for each violation, in order. */
  function Messages(vs: seq<Violation>): seq<string> {
    seq(|vs|, i requires 0 <= i < |vs| => vs[i].Path() + ": " + vs[i].Message())
  }

  /** A new record as Campaign.create stores it: the title passes through the
      trimming setter, the raised amount and the status take their defaults. */
  function NewCampaign(id: CampaignId, title: string, description: string, category: string,
                       goal: real, createdBy: UserId, now: int): (c: Campaign)
    ensures IsTrimmed(c.title) && Utf16Length(c.title) <= Utf16Length(title)
  {
    TrimUtf16Length(title);
    Campaign(id, Trim(title), description, category, goal, DefaultRaisedAmount, createdBy, now, DefaultStatus)
  }

  /** A freshly created record has nothing raised, is active and has a
      trimmed title; it is well formed exactly when the request's fields are
      allowed. */
  lemma NewCampaignDefaults(id: CampaignId, title: string, description: string, category: string,
                            goal: real, createdBy: UserId, now: int)
    ensures var c := NewCampaign(id, title, description, category, goal, createdBy, now);
      && c.raisedAmount == 0.0 && c.status == "active" && IsTrimmed(c.title)
      && c.createdBy == createdBy && c.createdAt == now
      && (WellFormed(c) <==> FieldsAllowed(Trim(title), description, category, Some(goal), 0.0, "active"))
  {
  }

  // ---------------------------------------------------------------------
  // progressPercentage

  function MinReal(a: real, b: real): real {
    if a <= b then a else b
  }

  /** The virtual progressPercentage: raised / goal * 100, capped at 100. */
  function ProgressPercentage(c: Campaign): (p: real)
    requires c.goalAmount != 0.0
    ensures p <= 100.0
  {
    MinReal(c.raisedAmount / c.goalAmount * 100.0, 100.0)
  }

  lemma QuotientAtLeastOne(raised: real, goal: real)
    requires goal > 0.0
    ensures raised / goal >= 1.0 <==> raised >= goal
  {
    var q := raised / goal;
    assert q * goal == raised;
    if q >= 1.0 {
      assert q * goal >= 1.0 * goal;
    } else {
      assert q * goal < 1.0 * goal;
    }
  }

  /** For a well-formed record the percentage lies in [0, 100]; it is 100
      exactly when the goal is reached, and the uncapped ratio otherwise. */
  lemma ProgressBounds(c: Campaign)
    requires c.goalAmount >= MinGoalAmount && c.raisedAmount >= MinRaisedAmount
    ensures 0.0 <= ProgressPercentage(c) <= 100.0
    ensures ProgressPercentage(c) == 100.0 <==> c.raisedAmount >= c.goalAmount
    ensures c.raisedAmount < c.goalAmount ==> ProgressPercentage(c) == c.raisedAmount / c.goalAmount * 100.0
  {
    var q := c.raisedAmount / c.goalAmount;
    assert q * c.goalAmount == c.raisedAmount;
    assert q >= 0.0;
    QuotientAtLeastOne(c.raisedAmount, c.goalAmount);
  }

  /** The raised amount is not capped by the goal; only the percentage is. A
      record raised past its goal is still well formed and shows 100. */
  lemma OverfundedStaysValid(c: Campaign, extra: real)
    requires WellFormed(c) && extra > 0.0 && c.raisedAmount >= c.goalAmount
    ensures var d := c.(raisedAmount := c.raisedAmount + extra);
      WellFormed(d) && d.raisedAmount > d.goalAmount && ProgressPercentage(d) == 100.0
  {
    ProgressBounds(c.(raisedAmount := c.raisedAmount + extra));
  }

  /** More raised never shows less progress. */
  lemma ProgressMonotone(c: Campaign, more: real)
    requires c.goalAmount > 0.0 && more >= c.raisedAmount
    ensures ProgressPercentage(c) <= ProgressPercentage(c.(raisedAmount := more))
  {
    var q1 := c.raisedAmount / c.goalAmount;
    var q2 := more / c.goalAmount;
    assert q1 * c.goalAmount == c.raisedAmount;
    assert q2 * c.goalAmount == more;
    if q1 > q2 {
      assert q1 * c.goalAmount > q2 * c.goalAmount;
    }
  }
}

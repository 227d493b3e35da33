/** The home page: the listing request it builds from the category and search
    controls, the campaigns it shows, the total raised across them and the
    message shown when there are none. */
module Home {
  import opened Common
  import opened ClientCommon
  import opened CampaignSchema
  import opened CampaignController

  const AllCategories: string := "all"
  const FetchFailedMessage: string := "Failed to fetch campaigns"
  const FilteredEmptyMessage: string := "Try adjusting your search or filter criteria."
  const FirstCampaignMessage: string := "Be the first to create a campaign!"

  /** The query parameters of the listing request; an absent field is not
      sent. */
  datatype Params = Params(category: Option<string>, search: Option<string>)

  /** The `params` object of `fetchCampaigns`. */
  function BuildParams(selectedCategory: string, searchTerm: string): (p: Params)
    ensures p.category.Some? <==> selectedCategory != AllCategories
    ensures p.category.Some? ==> p.category.value == selectedCategory
    ensures p.search.Some? <==> searchTerm != ""
    ensures p.search.Some? ==> p.search.value == searchTerm
  {
    Params(
      if selectedCategory != AllCategories then Some(selectedCategory) else None,
      if searchTerm != "" then Some(searchTerm) else None)
  }

  /** What the server answers to the page's request, no status being sent:
      the stored active campaigns of the selected category (any category for
      'all') whose title or description contains the search term ignoring
      case (every campaign for an empty term). Every campaign the page shows
      under "Active Campaigns" is active. */
  lemma HomeListing(m: map<CampaignId, Campaign>, n: nat, selectedCategory: string, searchTerm: string)
    requires forall id :: id in m ==> 0 <= id < n
    ensures var p := BuildParams(selectedCategory, searchTerm);
      forall c :: c in GetCampaigns(m, n, p.category, p.search, None) <==>
        && c in m.Values
        && c.status == DefaultStatus
        && (selectedCategory in {"", AllCategories} || c.category == selectedCategory)
        && (MatchesIgnoringCase(c.title, searchTerm) || MatchesIgnoringCase(c.description, searchTerm))
  {
    var p := BuildParams(selectedCategory, searchTerm);
    if searchTerm == "" {
      forall c: Campaign ensures MatchesIgnoringCase(c.title, searchTerm) {
        EmptyTermMatches(c.title);
      }
    }
  }

  /** `campaigns.reduce((sum, campaign) => sum + campaign.raisedAmount, 0)`. */
  function TotalRaised(cs: seq<Campaign>): real
    decreases |cs|
  {
    if cs == [] then 0.0 else TotalRaised(cs[..|cs| - 1]) + cs[|cs| - 1].raisedAmount
  }

  lemma {:induction false} TotalRaisedAppend(a: seq<Campaign>, b: seq<Campaign>)
    ensures TotalRaised(a + b) == TotalRaised(a) + TotalRaised(b)
    decreases |b|
  {
    if b == [] {
      assert a + b == a;
    } else {
      var b' := b[..|b| - 1];
      assert (a + b)[..|a + b| - 1] == a + b';
      TotalRaisedAppend(a, b');
    }
  }

  /** With no campaign below zero, the total is at least what any shown
      campaign has raised (and so never negative). */
  lemma {:induction false} TotalRaisedBoundsEach(cs: seq<Campaign>)
    requires forall i :: 0 <= i < |cs| ==> cs[i].raisedAmount >= MinRaisedAmount
    ensures TotalRaised(cs) >= 0.0
    ensures forall i :: 0 <= i < |cs| ==> cs[i].raisedAmount <= TotalRaised(cs)
    decreases |cs|
  {
    if cs != [] {
      var init := cs[..|cs| - 1];
      TotalRaisedBoundsEach(init);
      assert forall i :: 0 <= i < |init| ==> init[i] == cs[i];
    }
  }

  /** The message under "No campaigns found". */
  function EmptyStateMessage(searchTerm: string, selectedCategory: string): (msg: string)
    ensures msg == FilteredEmptyMessage <==> searchTerm != "" || selectedCategory != AllCategories
    ensures msg == FirstCampaignMessage <==> searchTerm == "" && selectedCategory == AllCategories
  {
    if searchTerm != "" || selectedCategory != AllCategories then FilteredEmptyMessage else FirstCampaignMessage
  }

  /** The page invites a first campaign exactly when it asked for the whole
      active listing, sending no parameter at all. */
  lemma EmptyStateMatchesRequest(searchTerm: string, selectedCategory: string)
    ensures EmptyStateMessage(searchTerm, selectedCategory) == FirstCampaignMessage
      <==> BuildParams(selectedCategory, searchTerm) == Params(None, None)
  {
  }

  /** The page; the server's replies are parameters. */
  class HomePage {
    var selectedCategory: string
    var searchTerm: string
    var campaigns: seq<Campaign>
    var error: string
    var loading: bool
    var requests: seq<Params>

    constructor ()
      ensures selectedCategory == AllCategories && searchTerm == ""
      ensures campaigns == [] && error == "" && loading && requests == []
    {
      selectedCategory := AllCategories;
      searchTerm := "";
      campaigns := [];
      error := "";
      loading := true;
      requests := [];
    }

    /** `fetchCampaigns`: sends the parameters of the current controls and
        shows the campaigns returned; a failure sets the error and keeps the
        list. A later success does not clear the error. */
    method FetchCampaigns(reply: Response<seq<Campaign>>)
      modifies this
      ensures selectedCategory == old(selectedCategory) && searchTerm == old(searchTerm)
      ensures requests == old(requests) + [BuildParams(selectedCategory, searchTerm)]
      ensures !loading
      ensures reply.Success? ==> campaigns == reply.data && error == old(error)
      ensures reply.Failure? ==> campaigns == old(campaigns) && error == FetchFailedMessage
    {
      loading := true;
      var params := Params(None, None);
      if selectedCategory != AllCategories {
        params := params.(category := Some(selectedCategory));
      }
      if searchTerm != "" {
        params := params.(search := Some(searchTerm));
      }
      requests := requests + [params];
      match reply {
        case Success(data) => campaigns := data;
        case Failure(_) => error := FetchFailedMessage;
      }
      loading := false;
    }

    /** Changing the category or the search term fetches again with the new
        controls. */
    method SetFilters(category: string, term: string, reply: Response<seq<Campaign>>)
      modifies this
      ensures selectedCategory == category && searchTerm == term
      ensures requests == old(requests) + [BuildParams(category, term)]
      ensures !loading
      ensures reply.Success? ==> campaigns == reply.data && error == old(error)
      ensures reply.Failure? ==> campaigns == old(campaigns) && error == FetchFailedMessage
    {
      selectedCategory := category;
      searchTerm := term;
      FetchCampaigns(reply);
    }
  }
}

/** The read side of the campaign controller and the pure parts of its write
    side: building the listing query, scanning the store newest first,
    lookup by id and by owner, the create request, and the truthy merge that
    `updateCampaign` applies before saving. The state changes themselves are
    methods of Ledger.Store. */
module CampaignController {
  import opened Common
  import opened CampaignSchema

  // ---------------------------------------------------------------------
  // Listing: getCampaigns

  /** The filters `getCampaigns` puts into its query object. */
  datatype Query = Query(category: Option<string>, status: string, search: Option<string>)

  /** Builds the query from the request's optional category, search and
      status parameters; an absent parameter and the empty string are both
      falsy. */
  function BuildQuery(category: Option<string>, search: Option<string>, status: Option<string>): (q: Query)
    ensures forall c :: Matches(q, c) <==>
      && (category.None? || category.value in {"", "all"} || c.category == category.value)
      && c.status == (if status.Some? && status.value != "" then status.value else "active")
      && (search.None? || search.value == ""
          || MatchesIgnoringCase(c.title, search.value)
          || MatchesIgnoringCase(c.description, search.value))
  {
    Query(
      if category.Some? && category.value != "" && category.value != "all" then category else None,
      if status.Some? && status.value != "" then status.value else DefaultStatus,
      if search.Some? && search.value != "" then search else None)
  }

  /** The condition the database applies for a query. */
  predicate Matches(q: Query, c: Campaign) {
    && (q.category.None? || c.category == q.category.value)
    && c.status == q.status
    && (q.search.None?
        || MatchesIgnoringCase(c.title, q.search.value)
        || MatchesIgnoringCase(c.description, q.search.value))
  }

  /** The campaigns stored under ids below `n` that `keep` accepts, highest id
      first. */
  function Scan(m: map<CampaignId, Campaign>, keep: Campaign -> bool, n: nat): (r: seq<Campaign>)
    ensures |r| <= n
    decreases n
  {
    if n == 0 then []
    else
      var id := n - 1;
      (if id in m && keep(m[id]) then [m[id]] else []) + Scan(m, keep, id)
  }

  /** The scan returns exactly the records stored under ids below `n` that
      `keep` accepts. */
  lemma {:induction false} ScanMembers(m: map<CampaignId, Campaign>, keep: Campaign -> bool, n: nat)
    ensures forall c :: c in Scan(m, keep, n) <==> exists id :: 0 <= id < n && id in m && m[id] == c && keep(c)
    decreases n
  {
    if n > 0 {
      var top := n - 1;
      var rest := Scan(m, keep, top);
      ScanMembers(m, keep, top);
      var head: seq<Campaign> := if top in m && keep(m[top]) then [m[top]] else [];
      assert Scan(m, keep, n) == head + rest;
      forall c ensures c in Scan(m, keep, n) <==> exists id :: 0 <= id < n && id in m && m[id] == c && keep(c) {
        if c in rest {
          var id :| 0 <= id < top && id in m && m[id] == c && keep(c);
          assert 0 <= id < n;
        }
        if c in head {
          assert m[top] == c;
        }
        if exists id :: 0 <= id < n && id in m && m[id] == c && keep(c) {
          var id :| 0 <= id < n && id in m && m[id] == c && keep(c);
          if id < top {
            assert c in rest;
          } else {
            assert c in head;
          }
        }
      }
    }
  }

  /** Records created later have higher ids (the store's invariant). */
  ghost predicate CreatedInIdOrder(m: map<CampaignId, Campaign>) {
    forall i, j :: i in m && j in m && i < j ==> m[i].createdAt < m[j].createdAt
  }

  /** Newest first, by the creation timestamp. */
  ghost predicate NewestFirst(r: seq<Campaign>) {
    forall i, j :: 0 <= i < j < |r| ==> r[i].createdAt > r[j].createdAt
  }

  /** When ids follow creation order, the scan is sorted by createdAt,
      newest first (and so holds no record twice). */
  lemma {:induction false} ScanIsNewestFirst(m: map<CampaignId, Campaign>, keep: Campaign -> bool, n: nat)
    requires CreatedInIdOrder(m)
    ensures NewestFirst(Scan(m, keep, n))
    decreases n
  {
    if n > 0 {
      var id := n - 1;
      var rest := Scan(m, keep, id);
      ScanIsNewestFirst(m, keep, id);
      ScanMembers(m, keep, id);
      if id in m && keep(m[id]) {
        forall j | 0 <= j < |rest| ensures m[id].createdAt > rest[j].createdAt {
          assert rest[j] in rest;
          var k :| 0 <= k < id && k in m && m[k] == rest[j] && keep(rest[j]);
        }
      }
    }
  }

  /** A scan past every stored id visits every stored record. */
  lemma ScanCoversStore(m: map<CampaignId, Campaign>, keep: Campaign -> bool, n: nat)
    requires forall id :: id in m ==> 0 <= id < n
    ensures forall c :: c in Scan(m, keep, n) <==> c in m.Values && keep(c)
  {
    ScanMembers(m, keep, n);
    forall id | id in m && keep(m[id]) ensures m[id] in Scan(m, keep, n) {
      assert 0 <= id < n;
    }
    forall c | c in m.Values && keep(c) ensures c in Scan(m, keep, n) {
      var id :| id in m.Keys && m[id] == c;
    }
  }

  /** getCampaigns: the stored campaigns that match the query, newest first.
      The category filter applies only for a given category other than 'all',
      the status defaults to 'active', and a non-empty search term keeps the
      campaigns whose title or description contains it, ignoring case. */
  function GetCampaigns(m: map<CampaignId, Campaign>, n: nat,
                        category: Option<string>, search: Option<string>, status: Option<string>): (r: seq<Campaign>)
    requires forall id :: id in m ==> 0 <= id < n
    ensures forall c :: c in r <==>
      && c in m.Values
      && (category.None? || category.value in {"", "all"} || c.category == category.value)
      && c.status == (if status.Some? && status.value != "" then status.value else "active")
      && (search.None? || search.value == ""
          || MatchesIgnoringCase(c.title, search.value)
          || MatchesIgnoringCase(c.description, search.value))
  {
    var q := BuildQuery(category, search, status);
    ScanCoversStore(m, (c: Campaign) => Matches(q, c), n);
    Scan(m, (c: Campaign) => Matches(q, c), n)
  }

  /** getCampaignsByNGO: every campaign created by `owner`, whatever its
      status, newest first. */
  function GetCampaignsByNgo(m: map<CampaignId, Campaign>, n: nat, owner: UserId): (r: seq<Campaign>)
    requires forall id :: id in m ==> 0 <= id < n
    ensures forall c :: c in r <==> c in m.Values && c.createdBy == owner
  {
    ScanCoversStore(m, (c: Campaign) => c.createdBy == owner, n);
    Scan(m, (c: Campaign) => c.createdBy == owner, n)
  }

  /** getCampaignById. */
  function GetCampaignById(m: map<CampaignId, Campaign>, id: CampaignId): (r: Reply<Campaign>)
    ensures r.Ok? <==> id in m
    ensures r.Ok? ==> r.value == m[id]
    ensures r.Fail? ==> r.error == NotFound("Campaign not found")
  {
    if id in m then Ok(m[id]) else Fail(NotFound("Campaign not found"))
  }

  /** Both listings are newest first in a store whose ids follow creation
      order. */
  lemma ListingsNewestFirst(m: map<CampaignId, Campaign>, n: nat,
                            category: Option<string>, search: Option<string>, status: Option<string>,
                            owner: UserId)
    requires forall id :: id in m ==> 0 <= id < n
    requires CreatedInIdOrder(m)
    ensures NewestFirst(GetCampaigns(m, n, category, search, status))
    ensures NewestFirst(GetCampaignsByNgo(m, n, owner))
  {
    var q := BuildQuery(category, search, status);
    ScanIsNewestFirst(m, (c: Campaign) => Matches(q, c), n);
    ScanIsNewestFirst(m, (c: Campaign) => c.createdBy == owner, n);
  }

  // ---------------------------------------------------------------------
  // createCampaign and updateCampaign

  /** The body of a create request; an absent text field reads as "". */
  datatype CreateRequest = CreateRequest(title: string, description: string, category: string,
                                         goalAmount: Option<real>)

  /** The schema's verdict on the record a create request builds: the
      request is accepted exactly when it carries a goal and the record it
      builds is well formed. */
  function CreateViolations(req: CreateRequest): (vs: seq<Violation>)
    ensures vs == [] <==>
      req.goalAmount.Some?
      && WellFormed(NewCampaign(0, req.title, req.description, req.category, req.goalAmount.value, 0, 0))
  {
    if req.goalAmount.Some? then
      NewCampaignDefaults(0, req.title, req.description, req.category, req.goalAmount.value, 0, 0);
      FieldViolations(Trim(req.title), req.description, req.category,
                      req.goalAmount, DefaultRaisedAmount, DefaultStatus)
    else
      FieldViolations(Trim(req.title), req.description, req.category,
                      req.goalAmount, DefaultRaisedAmount, DefaultStatus)
  }

  /** The body of an update request. A text field is truthy when non-empty,
      the goal when present and non-zero. */
  datatype CampaignPatch = CampaignPatch(title: string, description: string, category: string,
                                         goalAmount: Option<real>, status: string)

  predicate TruthyGoal(g: Option<real>) {
    g.Some? && g.value != 0.0
  }

  /** `field = supplied || field` for title, description, category,
      goalAmount and status; the title passes through the trimming setter.
      The ledger fields and the owner are never touched. */
  function Merge(c: Campaign, p: CampaignPatch): (u: Campaign)
    ensures u.id == c.id && u.raisedAmount == c.raisedAmount
    ensures u.createdBy == c.createdBy && u.createdAt == c.createdAt
  {
    c.(title := if p.title != "" then Trim(p.title) else c.title,
       description := if p.description != "" then p.description else c.description,
       category := if p.category != "" then p.category else c.category,
       goalAmount := if TruthyGoal(p.goalAmount) then p.goalAmount.value else c.goalAmount,
       status := if p.status != "" then p.status else c.status)
  }

  /** Applying the same update twice changes nothing the first did not. */
  lemma MergeIdempotent(c: Campaign, p: CampaignPatch)
    ensures Merge(Merge(c, p), p) == Merge(c, p)
  {
    var u := Merge(c, p);
    var v := Merge(u, p);
    if p.title != "" {
      TrimIdempotent(p.title);
      assert v.title == Trim(u.title) == u.title;
    }
    assert v.title == u.title;
  }

  /** A merged record keeps a trimmed title. */
  lemma MergeKeepsTitleTrimmed(c: Campaign, p: CampaignPatch)
    requires IsTrimmed(c.title)
    ensures IsTrimmed(Merge(c, p).title)
  {
    TrimIdempotent(p.title);
  }

  /** A supplied field replaces the stored one exactly when it is truthy: an
      empty or absent field, and a zero goal, keep the stored value. */
  lemma MergeReplacesOnlyTruthy(c: Campaign, p: CampaignPatch)
    ensures Merge(c, p).title == c.title <== p.title == ""
    ensures Merge(c, p).title == Trim(p.title) <== p.title != ""
    ensures Merge(c, p).description == c.description <== p.description == ""
    ensures Merge(c, p).description == p.description <== p.description != ""
    ensures Merge(c, p).category == c.category <== p.category == ""
    ensures Merge(c, p).category == p.category <== p.category != ""
    ensures Merge(c, p).goalAmount == c.goalAmount <== !TruthyGoal(p.goalAmount)
    ensures Merge(c, p).goalAmount == p.goalAmount.value <== TruthyGoal(p.goalAmount)
    ensures Merge(c, p).status == c.status <== p.status == ""
    ensures Merge(c, p).status == p.status <== p.status != ""
    ensures Merge(c, p) == c <== p == CampaignPatch("", "", "", None, "")
  {
  }

  /** Nothing ties the goal to the amount raised: an owner may lower the
      goal below it and the record still passes the schema. */
  lemma GoalMayDropBelowRaised(c: Campaign, goal: real)
    requires WellFormed(c) && MinGoalAmount <= goal < c.raisedAmount
    ensures var u := Merge(c, CampaignPatch("", "", "", Some(goal), ""));
      WellFormed(u) && u.goalAmount < u.raisedAmount
  {
  }
}

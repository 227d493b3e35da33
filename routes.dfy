/** The two routers: which handler a method and a path under /api/campaigns
    or /api/donations reach, which middleware runs before it, and what the
    chain decides before the handler runs. Paths are given as their
    segments; a request no route matches falls through to the framework's
    404, which is outside this model. */
module Routes {
  import opened Common
  import opened AuthMiddleware

  datatype Verb = Get | Post | Put | Delete

  datatype Router = CampaignsRouter | DonationsRouter

  /** A route's handler, with the path parameter it captures. */
  datatype Handler =
    | GetCampaigns
    | CreateCampaign
    | GetCampaignById(id: string)
    | UpdateCampaign(id: string)
    | DeleteCampaign(id: string)
    | GetCampaignsByNgo(userId: string)
    | MakeDonation
    | GetDonationHistory
    | GetDonationsForCampaign(campaignId: string)
    | GetDonationStats

  datatype Guard = ProtectGuard | NgoOnlyGuard | DonorOnlyGuard

  /** The route tables, in the order the routers try them. A parameter
      matches one non-empty segment. */
  function Resolve(router: Router, verb: Verb, path: seq<string>): (h: Option<Handler>)
    ensures h.Some? ==> (router == CampaignsRouter <==> IsCampaignHandler(h.value))
  {
    match router
    case CampaignsRouter =>
      if path == [] then
        (match verb
         case Get => Some(GetCampaigns)
         case Post => Some(CreateCampaign)
         case _ => None)
      else if |path| == 1 && path[0] != "" then
        (match verb
         case Get => Some(GetCampaignById(path[0]))
         case Put => Some(UpdateCampaign(path[0]))
         case Delete => Some(DeleteCampaign(path[0]))
         case Post => None)
      else if |path| == 2 && path[0] == "ngo" && path[1] != "" && verb == Get then
        Some(GetCampaignsByNgo(path[1]))
      else None
    case DonationsRouter =>
      if path == [] && verb == Post then Some(MakeDonation)
      else if path == ["history"] && verb == Get then Some(GetDonationHistory)
      else if |path| == 2 && path[0] == "campaign" && path[1] != "" && verb == Get then
        Some(GetDonationsForCampaign(path[1]))
      else if path == ["stats"] && verb == Get then Some(GetDonationStats)
      else None
  }

  predicate IsCampaignHandler(h: Handler) {
    h.GetCampaigns? || h.CreateCampaign? || h.GetCampaignById? || h.UpdateCampaign?
    || h.DeleteCampaign? || h.GetCampaignsByNgo?
  }

  /** A parameter value the router can capture. */
  predicate ValidParams(h: Handler) {
    match h
    case GetCampaignById(id) => id != ""
    case UpdateCampaign(id) => id != ""
    case DeleteCampaign(id) => id != ""
    case GetCampaignsByNgo(userId) => userId != ""
    case GetDonationsForCampaign(campaignId) => campaignId != ""
    case _ => true
  }

  /** The request a client sends to reach a handler. */
  function RequestFor(h: Handler): (Router, Verb, seq<string>) {
    match h
    case GetCampaigns => (CampaignsRouter, Get, [])
    case CreateCampaign => (CampaignsRouter, Post, [])
    case GetCampaignById(id) => (CampaignsRouter, Get, [id])
    case UpdateCampaign(id) => (CampaignsRouter, Put, [id])
    case DeleteCampaign(id) => (CampaignsRouter, Delete, [id])
    case GetCampaignsByNgo(userId) => (CampaignsRouter, Get, ["ngo", userId])
    case MakeDonation => (DonationsRouter, Post, [])
    case GetDonationHistory => (DonationsRouter, Get, ["history"])
    case GetDonationsForCampaign(campaignId) => (DonationsRouter, Get, ["campaign", campaignId])
    case GetDonationStats => (DonationsRouter, Get, ["stats"])
  }

  /** Every route is reachable: its own request resolves to it, so no route
      is shadowed by one declared before it (in particular /ngo/:userId is
      not taken by /:id), and a resolved request is that handler's request. */
  lemma ResolveRoundTrip(h: Handler, router: Router, verb: Verb, path: seq<string>)
    ensures ValidParams(h) ==> var (r, v, p) := RequestFor(h); Resolve(r, v, p) == Some(h)
    ensures Resolve(router, verb, path) == Some(h) ==> RequestFor(h) == (router, verb, path) && ValidParams(h)
  {
    if Resolve(router, verb, path) == Some(h) {
      if |path| == 1 {
        assert path == [path[0]];
      } else if |path| == 2 {
        assert path == [path[0], path[1]];
      }
    }
  }

  /** The middleware each route runs before its handler. */
  function Guards(h: Handler): (gs: seq<Guard>)
    ensures gs == [] || gs[0] == ProtectGuard
    ensures |gs| <= 2
  {
    match h
    case GetCampaigns => []
    case GetCampaignById(_) => []
    case CreateCampaign => [ProtectGuard, NgoOnlyGuard]
    case UpdateCampaign(_) => [ProtectGuard, NgoOnlyGuard]
    case DeleteCampaign(_) => [ProtectGuard, NgoOnlyGuard]
    case GetCampaignsByNgo(_) => [ProtectGuard]
    case MakeDonation => [ProtectGuard, DonorOnlyGuard]
    case GetDonationHistory => [ProtectGuard, DonorOnlyGuard]
    case GetDonationsForCampaign(_) => [ProtectGuard, NgoOnlyGuard]
    case GetDonationStats => [ProtectGuard, NgoOnlyGuard]
  }

  /** The end of the middleware chain: the handler runs with `req.user`, or
      a middleware has answered. */
  datatype Admission = Admitted(user: Option<User>) | Refused(error: ApiError)

  /** Runs the guards in order; each either answers or passes the request
      on. Before `protect` has run there is no user. */
  function RunGuards(gs: seq<Guard>, header: Option<string>, verify: string -> Option<UserId>,
                     users: map<UserId, User>, user: Option<User>): (a: Admission)
    ensures gs == [] ==> a == Admitted(user)
  {
    if gs == [] then Admitted(user)
    else
      match gs[0]
      case ProtectGuard =>
        (match Protect(header, verify, users)
         case Authenticated(u) => RunGuards(gs[1..], header, verify, users, u)
         case outcome => Refused(outcome.Refusal().value))
      case NgoOnlyGuard =>
        (match NgoOnly(user)
         case None => RunGuards(gs[1..], header, verify, users, user)
         case Some(e) => Refused(e))
      case DonorOnlyGuard =>
        (match DonorOnly(user)
         case None => RunGuards(gs[1..], header, verify, users, user)
         case Some(e) => Refused(e))
  }

  /** What the chain of a route decides for a request. */
  function Admit(h: Handler, header: Option<string>, verify: string -> Option<UserId>,
                 users: map<UserId, User>): Admission
  {
    RunGuards(Guards(h), header, verify, users, None)
  }

  /** The role a route demands of its caller, if any. */
  function RequiredRole(h: Handler): Option<string> {
    if NgoOnlyGuard in Guards(h) then Some("ngo")
    else if DonorOnlyGuard in Guards(h) then Some("donor")
    else None
  }

  /** The access table: listing and reading campaigns are open to anyone;
      every other route first requires a token that verifies (401
      otherwise), then a stored user of the route's role (403 otherwise).
      Listing an NGO's campaigns requires a token but no role. */
  lemma AccessTable(h: Handler, header: Option<string>, verify: string -> Option<UserId>,
                    users: map<UserId, User>)
    ensures Guards(h) == [] <==> h.GetCampaigns? || h.GetCampaignById?
    ensures Guards(h) == [] ==> Admit(h, header, verify, users) == Admitted(None)
    ensures Guards(h) != [] ==>
      var p := Protect(header, verify, users);
      match p
      case Authenticated(u) =>
        Admit(h, header, verify, users) ==
          (match RequiredRole(h)
           case None => Admitted(u)
           case Some(role) =>
             if u.Some? && u.value.role == role then Admitted(u)
             else Refused(Forbidden(if role == "ngo" then NgoRequiredMessage else DonorRequiredMessage)))
      case _ => Admit(h, header, verify, users) == Refused(p.Refusal().value)
  {
    var gs := Guards(h);
    if gs != [] && Protect(header, verify, users).Authenticated? {
      var u := Protect(header, verify, users).user;
      assert Admit(h, header, verify, users) == RunGuards(gs[1..], header, verify, users, u);
      if |gs| == 2 {
        assert gs[1..][1..] == [];
        if gs[1] == NgoOnlyGuard {
          assert RequiredRole(h) == Some("ngo");
        } else {
          assert gs == [ProtectGuard, DonorOnlyGuard];
          assert RequiredRole(h) == Some("donor");
        }
      } else {
        assert gs == [ProtectGuard];
        assert RequiredRole(h) == None;
      }
    }
  }

  predicate HasRole(user: Option<User>, role: string) {
    user.Some? && user.value.role == role
  }

  /** A route that demands a role admits only callers who have it. */
  lemma AdmittedHasRole(h: Handler, header: Option<string>, verify: string -> Option<UserId>,
                        users: map<UserId, User>)
    ensures RequiredRole(h).Some? && Admit(h, header, verify, users).Admitted? ==>
      HasRole(Admit(h, header, verify, users).user, RequiredRole(h).value)
    ensures Guards(h) != [] && Admit(h, header, verify, users).Admitted? ==>
      && Protect(header, verify, users).Authenticated?
      && Admit(h, header, verify, users).user == Protect(header, verify, users).user
  {
    AccessTable(h, header, verify, users);
  }

  /** The campaign writes are for NGOs and the donation writes for donors:
      no user reaches both kinds, and a donor never reaches a campaign
      write. */
  lemma RolesSeparateWrites(header: Option<string>, verify: string -> Option<UserId>,
                            users: map<UserId, User>, id: string)
    ensures Admit(CreateCampaign, header, verify, users).Admitted? ==>
      HasRole(Admit(CreateCampaign, header, verify, users).user, "ngo")
    ensures Admit(UpdateCampaign(id), header, verify, users).Admitted? ==>
      HasRole(Admit(UpdateCampaign(id), header, verify, users).user, "ngo")
    ensures Admit(DeleteCampaign(id), header, verify, users).Admitted? ==>
      HasRole(Admit(DeleteCampaign(id), header, verify, users).user, "ngo")
    ensures Admit(MakeDonation, header, verify, users).Admitted? ==>
      HasRole(Admit(MakeDonation, header, verify, users).user, "donor")
    ensures !(Admit(CreateCampaign, header, verify, users).Admitted?
              && Admit(MakeDonation, header, verify, users).Admitted?)
  {
    AdmittedHasRole(CreateCampaign, header, verify, users);
    AdmittedHasRole(UpdateCampaign(id), header, verify, users);
    AdmittedHasRole(DeleteCampaign(id), header, verify, users);
    AdmittedHasRole(MakeDonation, header, verify, users);
    assert RequiredRole(CreateCampaign) == Some("ngo");
    assert RequiredRole(UpdateCampaign(id)) == Some("ngo");
    assert RequiredRole(DeleteCampaign(id)) == Some("ngo");
    assert RequiredRole(MakeDonation) == Some("donor");
  }

  /** A request without an Authorization header reaches only the two open
      routes. */
  lemma NoHeaderOnlyOpenRoutes(h: Handler, verify: string -> Option<UserId>, users: map<UserId, User>)
    ensures Admit(h, None, verify, users).Admitted? <==> h.GetCampaigns? || h.GetCampaignById?
    ensures !(h.GetCampaigns? || h.GetCampaignById?) ==>
      Admit(h, None, verify, users) == Refused(Unauthorized(NoTokenMessage))
  {
    AccessTable(h, None, verify, users);
  }
}

# DonateHub funding ledger and pages, in Dafny

DonateHub is a donation platform. NGOs publish fundraising campaigns and
donors give money to them. An Express/Mongoose server keeps the campaigns
and an append-only list of donations. A React client shows and edits them.
This project models the server's ledger, its validators, its authentication
middleware and route tables, and the client's pure logic and page state.
It proves what they promise about one another.

**Server**
- **Stored records.** `CampaignSchema` and `DonationSchema` hold the stored
  records and the checks their schemas run. `Ledger.Store` is a class over
  the campaign map and the donation list. Its methods are createCampaign,
  updateCampaign, deleteCampaign and makeDonation.
- **Ledger invariant.** `Balanced()` says each campaign's `raisedAmount` is
  the sum of its donations. Every method keeps it, except makeDonation when
  the campaign save fails: that case keeps the donation and breaks the
  invariant.
- **Reads.** `CampaignController` and `DonationController` model the read
  side: the listing query, newest first; a donor's history; one campaign's
  donations; and the NGO statistics. The statistics' per-title grouping is a
  loop proved against a fold.
- **Access.** `AuthMiddleware` models `protect`, `ngoOnly` and `donorOnly`.
  `Routes` models the two routers and the access table they produce.

**Client**
- **Auth.** `AuthContext` models the reducer and the provider that keeps the
  token.
- **Forms.** `CampaignForm` models the create and edit forms and their
  validation chain. `CampaignDetail` models the donate dialog and who sees
  which controls.
- **Dashboards and home.** `DonorDashboard` and `NgoDashboard` model the
  dashboards' figures and the delete flow. `Home` models the listing request,
  the total raised and the empty state.
- **Server replies** reach the pages as parameters (`Response<T>`).

**How the model represents things**
- **Ids and order.** Ids are integers. The store hands out campaign ids from
  a counter and stamps records from a clock that only moves forward, so id
  order, creation order and timestamp order agree. "Newest first" is
  therefore a descending-id scan for campaigns and a reversal of the stored
  list for donations.
- **Amounts** are exact reals.

**Where the model follows the code, not the documented behaviour**
- A schema rejection is thrown inside the controllers' `try` and comes back
  as HTTP 500, not 400.
- The fourth category is `others`.
- `recentDonations` is the first ten of the owner's donations in stored
  order, that is the earliest ten, although the comment beside it says
  "Last 10 donations".

## Model

| member | source | states |
|---|---|---|
| Common.ApiError.Status | server/controllers/campaignController.js:37-39 | every error reply carries a 4xx or 5xx status; a caught exception is 500 |
| Common.TrimStart | server/models/Campaign.js:7 | the result is a suffix of the input that starts with a non-space, and only white space was dropped; white space is the full ECMAScript WhiteSpace and LineTerminator set |
| Common.TrimEnd | server/models/Campaign.js:7 | the result is a prefix of the input that ends with a non-space, and only white space was dropped |
| Common.Trim | server/models/Campaign.js:7 | the trimmed title is a slice of the input with only white space outside it, and it neither starts nor ends with white space |
| Common.TrimSlice | server/models/Campaign.js:7 | cutting leading white space and then trailing white space leaves a slice of the text with only white space outside it, and neither end of the slice is white space |
| Common.TrimDropsTrailingSpace | server/models/Campaign.js:7 | a trimmed text followed by one space trims back to the text |
| Common.TrimFixesTrimmed | server/models/Campaign.js:7 | trimming an already trimmed title leaves it unchanged |
| Common.TrimIdempotent | server/models/Campaign.js:7 | trimming twice is trimming once, and the result counts as trimmed |
| Common.TrimStartOfBlank | server/models/Campaign.js:6-7 | a title of spaces only trims to the empty string |
| Common.TrimEmptyIffBlank | server/models/Campaign.js:6-7 | the trimmed title is empty exactly when the input is all white space (tabs, line breaks, no-break and other Unicode spaces included), so `required` fails for it |
| Common.TrimSkipsLeadingSpace | server/models/Campaign.js:7 | a leading white-space character of any kind does not change the trimmed title |
| Common.TrimBlankOfUnicodeSpaces | server/models/Campaign.js:6-7 | a line feed, a no-break space and an ideographic space trim to the empty string, so `required` fails for such a title |
| Common.TrimBlankOfSeparators | server/models/Campaign.js:6-7 | the line separator and the byte order mark trim to the empty string |
| Common.TrimIdeographicSpace | server/models/Campaign.js:7 | an ideographic space before a letter is trimmed and the letter stays |
| Common.EmptyTermMatches | server/controllers/campaignController.js:25-29 | the empty search term matches every text |
| Common.Utf16Length | server/models/Campaign.js:8 | the length JavaScript reports lies between the number of characters and twice it |
| Common.Utf16LengthUniform | server/models/Campaign.js:8 | a text inside the Basic Multilingual Plane has one unit per character; one outside it has two |
| Common.Utf16LengthAppend | server/models/Campaign.js:8 | the length of a concatenation is the sum of the lengths |
| Common.Utf16LengthSpaceAppended | server/models/Campaign.js:7-8 | one appended space adds one to the length |
| Common.Utf16LengthSlice | server/models/Campaign.js:8 | a slice is never longer than the text it is cut from |
| Common.TrimUtf16Length | server/models/Campaign.js:7-8 | trimming never makes a title longer, in code units |
| Common.IndexOf | server/middleware/auth.js:11 | returns the first position of the separator |
| Common.SplitOnSpace | server/middleware/auth.js:11 | split(' ') always yields at least one field |
| Common.SplitJoinRoundTrip | server/middleware/auth.js:11 | joining the fields of split(' ') with spaces gives back the header, and no field holds a space |
| Common.Filter | client/src/pages/NGODashboard.jsx:56 | filter keeps exactly the elements that pass, never more than it was given |
| Common.FilterAppend | client/src/pages/NGODashboard.jsx:56 | filtering a concatenation filters each part, in order |
| Common.FilterAll | client/src/pages/NGODashboard.jsx:56 | filtering with a test every element passes changes nothing |
| Common.Reverse | server/controllers/donationController.js:57 | the reversed list holds the same elements in the opposite order |
| Common.Take | client/src/pages/NGODashboard.jsx:290 | slice(0, n) keeps the first min(n, length) elements unchanged |
| ClientCommon.ErrorText | client/src/pages/CreateCampaign.jsx:90 | the server's message when it has a non-empty one, the page's fallback otherwise |
| ClientCommon.CategoryColor | client/src/pages/Home.jsx:67-75 | any category other than health, education and disaster gets the 'others' colour |
| ClientCommon.CategoryColorsDistinct | client/src/pages/DonorDashboard.jsx:41-49 | the three named categories get three distinct colours, none of them the fallback |
| CampaignSchema.TitleViolations | server/models/Campaign.js:4-9 | the title is required and at most 100 UTF-16 code units long; at most one violation, 'required' first |
| CampaignSchema.DescriptionViolations | server/models/Campaign.js:10-14 | the description is required and at most 1000 UTF-16 code units long; at most one violation |
| CampaignSchema.CategoryViolations | server/models/Campaign.js:15-19 | the category must be one of health, education, disaster, others; a missing one is reported as required |
| CampaignSchema.GoalViolations | server/models/Campaign.js:20-24 | the goal is required and at least 1 |
| CampaignSchema.FieldViolations | server/models/Campaign.js:3-44 | no violation exactly when every field satisfies its schema constraint, raised amount and status included |
| CampaignSchema.ValidationMessage | server/controllers/campaignController.js:79-80 | the 500 body starts "Campaign validation failed: " and, for one failing path, continues with "path: message" |
| CampaignSchema.NewCampaign | server/controllers/campaignController.js:67-73 | the stored title is trimmed and never longer than the one sent |
| CampaignSchema.NewCampaignDefaults | server/models/Campaign.js:25-43 | a created record has nothing raised, status active, a trimmed title, the caller as owner, and is valid exactly when its fields are allowed |
| CampaignSchema.QuotientAtLeastOne | server/models/Campaign.js:48 | raised/goal reaches 1 exactly when raised reaches the goal |
| CampaignSchema.ProgressPercentage | server/models/Campaign.js:47-49 | the percentage never exceeds 100; ProgressBounds and ProgressMonotone give the rest |
| CampaignSchema.ProgressBounds | server/models/Campaign.js:47-49 | the progress is within 0..100, is 100 exactly when the goal is reached, and is raised/goal*100 below it |
| CampaignSchema.OverfundedStaysValid | server/models/Campaign.js:20-29 | a campaign may take in more than its goal and remain valid at 100% |
| CampaignSchema.ProgressMonotone | server/models/Campaign.js:47-49 | raising more never lowers the progress |
| DonationSchema.DonationViolations | server/models/Donation.js:3-23 | valid exactly when donor, campaign and an amount of at least 1 are present; amount missing and amount too small are told apart |
| DonationSchema.ValidationMessage | server/controllers/donationController.js:38-39 | the 500 body starts "Donation validation failed: " and, for one failing path, continues with "path: message", such as "amount: Donation amount must be at least 1" |
| DonationSchema.Total | server/controllers/donationController.js:108 | the reduce over non-negative amounts is never negative; TotalAppend and TotalReverse relate it across lists |
| DonationSchema.TotalAppend | server/controllers/donationController.js:108 | the sum of a concatenation is the sum of the sums |
| DonationSchema.TotalReverse | server/controllers/donationController.js:57 | reordering newest first does not change the sum |
| DonationSchema.TotalAtLeastCount | server/models/Donation.js:14-18 | with every amount at least 1, the sum is at least the number of donations |
| DonationSchema.ForCampaign | server/controllers/donationController.js:82 | exactly the donations recorded against the campaign |
| DonationSchema.Raised | server/controllers/donationController.js:22-29 | what the ledger says a campaign raised: the sum of its donations; RaisedAppend and RaisedOfUnused state how it moves |
| DonationSchema.RaisedAppend | server/controllers/donationController.js:22-29 | a new donation adds its amount to its own campaign's sum and to no other |
| DonationSchema.RaisedOfUnused | server/controllers/campaignController.js:67-73 | a campaign with no donations has raised nothing |
| CampaignController.BuildQuery | server/controllers/campaignController.js:9-24 | the query matches a campaign exactly when its category is the one asked for (none, '' and 'all' mean any), its status is the one asked for (default active), and a non-empty search term occurs in its title or description ignoring case |
| CampaignController.Scan | server/controllers/campaignController.js:32-34 | a scan below id n returns at most n records |
| CampaignController.ScanMembers | server/controllers/campaignController.js:32-34 | the scan returns exactly the records stored under the scanned ids that the filter accepts |
| CampaignController.ScanCoversStore | server/controllers/campaignController.js:32-34 | a scan past every stored id returns exactly the stored records the filter accepts |
| CampaignController.ScanIsNewestFirst | server/controllers/campaignController.js:34 | with ids in creation order, the scan is sorted by createdAt, newest first |
| CampaignController.GetCampaigns | server/controllers/campaignController.js:7-40 | the listing holds exactly the stored campaigns of the category (none given, '' or 'all' means any), of the status (default active), whose title or description contains the search term ignoring case |
| CampaignController.GetCampaignsByNgo | server/controllers/campaignController.js:144-154 | exactly the campaigns the user created, whatever their status |
| CampaignController.GetCampaignById | server/controllers/campaignController.js:45-58 | the stored record, or 404 'Campaign not found' exactly when there is none |
| CampaignController.ListingsNewestFirst | server/controllers/campaignController.js:32-34 | both listings are sorted newest first |
| CampaignController.CreateViolations | server/controllers/campaignController.js:67-73 | a create request is accepted exactly when it carries a goal and the record it builds is well formed |
| CampaignController.Merge | server/controllers/campaignController.js:100-106 | an update never touches the id, the raised amount, the owner or the creation time |
| CampaignController.MergeIdempotent | server/controllers/campaignController.js:100-106 | applying the same update twice gives the same record as once |
| CampaignController.MergeKeepsTitleTrimmed | server/controllers/campaignController.js:102 | an updated title is still trimmed |
| CampaignController.MergeReplacesOnlyTruthy | server/controllers/campaignController.js:100-106 | each of title (trimmed), description, category, goal and status is replaced exactly when the supplied value is truthy and kept otherwise; an empty update changes nothing |
| CampaignController.GoalMayDropBelowRaised | server/controllers/campaignController.js:105 | the owner may lower the goal below the raised amount and the record still validates |
| Ledger.InsertKeepsInvariants | server/controllers/campaignController.js:67-73 | storing a new record under a fresh id keeps the store consistent, and balanced when it has raised nothing |
| Ledger.ReplaceKeepsInvariants | server/controllers/campaignController.js:102-108 | saving a merged record keeps the store consistent and balanced |
| Ledger.RemoveKeepsInvariants | server/controllers/campaignController.js:134 | removing a campaign keeps the store consistent and balanced |
| Ledger.AppendKeepsConsistent | server/controllers/donationController.js:22-26 | appending a stamped donation keeps the store consistent and moves only its campaign's sum |
| Ledger.AcceptedRequestIsStorable | server/controllers/campaignController.js:67-73 | an accepted request builds a well-formed record with a trimmed title, the given id and time, and nothing raised |
| Ledger.Credited | server/controllers/donationController.js:29 | only the raised amount changes, by exactly the donation |
| Ledger.DonationMovesLedger | server/controllers/donationController.js:22-30 | after a donation the ledger balances again when its campaign is credited, and does not balance when it is not |
| Ledger.Store.constructor | server/models/Campaign.js:3-44 | an empty store is consistent and balanced |
| Ledger.Store.CreateCampaign | server/controllers/campaignController.js:63-82 | a valid request stores a new active record owned by the caller under a fresh id; an invalid one (a title of white space only included) is a 500 with the "path: message" validation text and stores nothing; the id counter and the clock move on exactly when a record is stored; the ledger stays balanced |
| Ledger.Store.Insert | server/controllers/campaignController.js:67-73 | a new record goes in under a fresh id, the donations stay, the id counter and the clock each move on by one, the store stays consistent, and balanced when the record has raised nothing |
| Ledger.Store.UpdateCampaign | server/controllers/campaignController.js:87-116 | 404 before 403, neither changing anything; otherwise the merged record is saved if valid, else 500 with the "path: message" validation text and unchanged; donations, the id counter and the clock never change |
| Ledger.Store.DeleteCampaign | server/controllers/campaignController.js:121-139 | 404 before 403, neither changing anything; otherwise the campaign is removed and its donations stay; the id counter and the clock do not move |
| Ledger.Store.RecordDonation | server/controllers/donationController.js:22-30 | the donation is appended; the campaign is credited unless the save fails; the clock moves on by one; the ledger stays balanced exactly when the reply is a success |
| Ledger.Store.SaveCredit | server/controllers/donationController.js:29-30 | only that campaign's raised amount grows, by the amount, and the store stays consistent |
| Ledger.Store.MakeDonation | server/controllers/donationController.js:7-41 | 404, then 400 'Campaign is not active', then a 500 with the "path: message" validation text, none writing anything; otherwise the donation is recorded and the clock moves on with it; balance survives except when a save failure leaves an extra donation |
| DonationController.FilterChronological | server/controllers/donationController.js:48 | a filter keeps the stored chronological order |
| DonationController.ReverseNewestFirst | server/controllers/donationController.js:57 | the reversed chronological list is newest first |
| DonationController.DonationHistory | server/controllers/donationController.js:46-63 | the history holds exactly the caller's donations |
| DonationController.DonationHistoryNewestFirst | server/controllers/donationController.js:57 | the history is sorted by donation time, newest first |
| DonationController.ForCampaignIsFilter | server/controllers/donationController.js:82 | the campaign's donations are the stored list filtered on the campaign reference |
| DonationController.DonationsForCampaign | server/controllers/donationController.js:68-89 | 404 for a missing campaign, 403 for another owner, otherwise exactly the campaign's donations |
| DonationController.DonationsForCampaignOrderAndSum | server/controllers/donationController.js:82-86 | the campaign's donations come newest first and add up to what the ledger says it raised |
| DonationController.OwnedDonations | server/controllers/donationController.js:98-104 | exactly the donations to the owner's campaigns, in stored order |
| DonationController.AddToGroups | server/controllers/donationController.js:113-123 | one donation adds at most one entry to the per-title groups |
| DonationController.Titles | server/controllers/donationController.js:129 | the titles of the groups, in insertion order |
| DonationController.AddToGroupsTitles | server/controllers/donationController.js:113-118 | in the entry list a new title goes to the end and a known title keeps its place |
| DonationController.AddToGroupsDistinct | server/controllers/donationController.js:113-118 | one donation never creates a second entry for a title |
| DonationController.AddToGroupsSums | server/controllers/donationController.js:113-123 | one donation adds one to the counts and its amount to the totals |
| DonationController.AddToGroupsLookup | server/controllers/donationController.js:113-123 | one donation counts and sums under its own title and under no other |
| DonationController.AddToGroupsStep | server/controllers/donationController.js:113-123 | one step adds one to the counts and the amount to the totals, and keeps titles distinct |
| DonationController.Titled | server/controllers/donationController.js:114 | exactly the donations to campaigns with that title |
| DonationController.Groups | server/controllers/donationController.js:112-123 | the forEach over the owned donations; GroupsAddUp, GroupsPerTitle and GroupsCoverTitles give its entries |
| DonationController.GroupsAddUp | server/controllers/donationController.js:112-123 | titles are distinct, the counts add up to the number of donations and the totals to their sum |
| DonationController.GroupsPerTitle | server/controllers/donationController.js:112-123 | each title's count and total are those of the donations to campaigns with that title |
| DonationController.GroupsCoverTitles | server/controllers/donationController.js:112-123 | a title has an entry exactly when some donation went to a campaign with that title |
| DonationController.RoundCents | server/controllers/donationController.js:128 | the rounded average is a whole number of cents within half a cent of the exact one, so it is the value Math.round(x * 100) / 100 gives |
| DonationController.RoundCentsOfCents | server/controllers/donationController.js:128 | a value in whole cents is not changed by rounding |
| DonationController.Average | server/controllers/donationController.js:109 | average times count is the total, and 0 without donations |
| DonationController.GetDonationStats | server/controllers/donationController.js:95-135 | count, sum, the rounded average, the per-title groups built by the loop, and the first ten owned donations |
| DonationController.StatsConsistent | server/controllers/donationController.js:107-130 | group counts and totals add up to the reported count and sum; without donations the average is 0 and there are no groups; the recent list holds at most ten owned donations |
| AuthMiddleware.AuthOutcome.Refusal | server/middleware/auth.js:22-28 | every refusal of protect is a 401 |
| AuthMiddleware.BearerToken | server/middleware/auth.js:11 | the second space-separated field, present exactly when the header holds a space |
| AuthMiddleware.SplitFieldsCount | server/middleware/auth.js:11 | split(' ') has a second field exactly when the header holds a space |
| AuthMiddleware.BearerTokenOfHeader | server/middleware/auth.js:8-11 | the token of 'Bearer ' + token is that token |
| AuthMiddleware.Protect | server/middleware/auth.js:5-29 | no header or no 'Bearer' prefix is 401 'no token'; a token that is missing or does not verify is 401 'token failed'; otherwise the named user is loaded |
| AuthMiddleware.ProtectAcceptsBearer | server/middleware/auth.js:8-19 | a verified bearer token of a stored user authenticates that user |
| AuthMiddleware.ProtectBareBearer | server/middleware/auth.js:11-22 | the header 'Bearer' alone is refused with 'token failed' |
| AuthMiddleware.NgoOnly | server/middleware/auth.js:32-38 | passes exactly a loaded NGO user, otherwise 403 'NGO role required' |
| AuthMiddleware.DonorOnly | server/middleware/auth.js:41-47 | passes exactly a loaded donor, otherwise 403 'Donor role required' |
| AuthMiddleware.NoUserPassesBoth | server/middleware/auth.js:32-47 | no user passes both role gates, and a missing user passes neither |
| Routes.Resolve | server/routes/campaigns.js:14-23 | campaign paths reach campaign handlers and donation paths donation handlers |
| Routes.ResolveRoundTrip | server/routes/donations.js:12-15 | every route is reachable by its own request and not shadowed, and a resolved request is that route's request |
| Routes.Guards | server/routes/campaigns.js:14-23 | a guarded route runs protect first, and at most one role gate after it |
| Routes.RunGuards | server/routes/donations.js:12-15 | a route without middleware admits the request as it is |
| Routes.Admit | server/routes/campaigns.js:14-23 | the outcome of running a route's middleware chain on a request; AccessTable states it per route |
| Routes.RequiredRole | server/routes/donations.js:12-15 | the role a route's gate demands, if any; AdmittedHasRole shows an admitted caller has it |
| Routes.AccessTable | server/routes/campaigns.js:14-23 | only listing and reading campaigns are open; every other route needs a verified token (401) and then the route's role (403) |
| Routes.AdmittedHasRole | server/middleware/auth.js:32-47 | a route that demands a role admits only the user protect loaded, and only with that role |
| Routes.RolesSeparateWrites | server/routes/donations.js:12 | campaign writes admit only NGO users and donations only donors, so no request gets through both |
| Routes.NoHeaderOnlyOpenRoutes | server/routes/donations.js:12-15 | without a header only the two open routes admit, every other route answers 401 'no token' |
| AuthContext.Reduce | client/src/context/AuthContext.jsx:6-48 | each action's effect on the state; an unknown action leaves it unchanged |
| AuthContext.InitialState | client/src/context/AuthContext.jsx:50-56 | starts unauthenticated, with the stored token, not loading and without error |
| AuthContext.RunKeepsCoherent | client/src/context/AuthContext.jsx:6-48 | every reachable state that is authenticated has a user |
| AuthContext.OnlyLoginSuccessAuthenticates | client/src/context/AuthContext.jsx:14-22 | an unauthenticated state becomes authenticated only through LOGIN_SUCCESS |
| AuthContext.LogoutEndsSession | client/src/context/AuthContext.jsx:32-39 | logout always ends the session, twice the same as once |
| AuthContext.AuthorizationHeader | client/src/context/AuthContext.jsx:62-68 | the header is set exactly while a non-empty token is held |
| AuthContext.HeaderRoundTrip | client/src/context/AuthContext.jsx:64 | the server's protect reads back the token the client put in the header |
| AuthContext.SignInSendsReturnedToken | client/src/context/AuthContext.jsx:60-68 | after a successful login the client sends the token the server returned and `protect` reads it back; after a failed one no header is sent |
| AuthContext.AuthProvider.constructor | client/src/context/AuthContext.jsx:50-59 | the provider starts from the initial state with the stored token |
| AuthContext.AuthProvider.SignIn | client/src/context/AuthContext.jsx:91-127 | start, then store the token and log in, or fail with the server's message or the fallback |
| AuthContext.AuthProvider.Login | client/src/context/AuthContext.jsx:91-107 | the new reducer state is LOGIN_START then LOGIN_SUCCESS with the returned user, whose token is also stored; on failure it is LOGIN_START then LOGIN_FAILURE with the message or 'Login failed', and the stored token is kept |
| AuthContext.AuthProvider.Register | client/src/context/AuthContext.jsx:109-127 | the same reducer steps and stored token as login, with 'Registration failed' as the fallback message |
| AuthContext.AuthProvider.LoadUser | client/src/context/AuthContext.jsx:78-89 | the returned user is logged in with the stored token; a failure clears the session and the stored token |
| AuthContext.AuthProvider.LogoutUser | client/src/context/AuthContext.jsx:129-132 | the stored token is removed, the session ends and no header is sent |
| CampaignForm.FormError | client/src/pages/CreateCampaign.jsx:60-78 | the first failing check in order: all fields, goal above 0, title at most 100 and description at most 1000 UTF-16 code units |
| CampaignForm.FormAcceptsGoalBelowOne | client/src/pages/CreateCampaign.jsx:65-68 | the form sends a goal of 0.5, which the schema rejects |
| CampaignForm.FormAcceptsBlankTitle | client/src/pages/CreateCampaign.jsx:60-63 | the form sends a title of spaces, which the server trims and rejects as missing |
| CampaignForm.FormRefusesPaddedTitle | client/src/pages/CreateCampaign.jsx:70-73 | the form refuses a title that is too long only because of a trailing space, which the server would trim and accept |
| CampaignForm.RefusesLongTitle | client/src/pages/CreateCampaign.jsx:70-73 | a complete form with a positive goal and a title over 100 code units gets the title-length message |
| CampaignForm.FormAcceptedFieldsNearlyAllowed | client/src/pages/CreateCampaign.jsx:60-78 | an accepted form fails on the server only for a goal below 1, a blank title or an unknown category |
| CampaignForm.FormCountsCodeUnits | client/src/pages/CreateCampaign.jsx:70-73 | a title of 51 emoji is 102 code units, so the form and the schema both refuse it |
| CampaignForm.CreatePayload | client/src/pages/CreateCampaign.jsx:82-85 | the request carries the form's fields with the parsed goal |
| CampaignForm.UpdatePayload | client/src/pages/EditCampaign.jsx:123-126 | the request carries the form's fields, the parsed goal and the status |
| CampaignForm.AcceptedEditReplacesAll | client/src/pages/EditCampaign.jsx:101-128 | an accepted edit replaces every checked field on the server, leaving raised amount and owner |
| CampaignForm.GoalBelowRaisedWarning | client/src/pages/EditCampaign.jsx:337 | the warning shows when a loaded campaign has raised more than the typed goal; WarningDoesNotBlock shows it blocks nothing |
| CampaignForm.WarningDoesNotBlock | client/src/pages/EditCampaign.jsx:338 | a goal below the raised amount shows the warning, passes the form and is stored |
| CampaignForm.LoadedFormPasses | client/src/pages/EditCampaign.jsx:65-71 | a form loaded from a valid stored record passes the form's checks |
| CampaignForm.AccessDenied | client/src/pages/CreateCampaign.jsx:96 | the create and edit pages turn away anyone who is not an NGO user; AccessDeniedAgreesWithServer ties it to the server's NGO gate |
| CampaignForm.AccessDeniedAgreesWithServer | client/src/pages/EditCampaign.jsx:137 | a user is turned away exactly when the server's ngoOnly gate would refuse them, and a missing user always is |
| CampaignForm.CreateCampaignPage.constructor | client/src/pages/CreateCampaign.jsx:23-30 | the page starts without error, not loading, nothing sent |
| CampaignForm.CreateCampaignPage.HandleSubmit | client/src/pages/CreateCampaign.jsx:55-94 | a failing check shows its message and sends nothing; otherwise the request is sent, and the page moves to the new campaign or shows the error |
| CampaignForm.EditCampaignPage.constructor | client/src/pages/EditCampaign.jsx:24-34 | the page starts with an empty form and nothing sent |
| CampaignForm.EditCampaignPage.FetchCampaign | client/src/pages/EditCampaign.jsx:52-78 | a campaign of another owner is refused and the form stays empty; the owner's campaign fills the form; a failed fetch shows the fetch error; the status changes only with the owner's campaign, and the saving flag never |
| CampaignForm.EditCampaignPage.HandleSubmit | client/src/pages/EditCampaign.jsx:96-135 | the same checks, then the update is sent with the status as loaded, and the page moves to the campaign or shows the error; form, campaign and status are left as they were |
| CampaignDetail.CanDonate | client/src/pages/CampaignDetail.jsx:163 | a logged-in donor on an active campaign; CanDonateAgreesWithServer ties it to the server's donor gate |
| CampaignDetail.IsOwner | client/src/pages/CampaignDetail.jsx:164 | the logged-in NGO that created the campaign; DonorIsNeverOwner separates it from CanDonate |
| CampaignDetail.DonorIsNeverOwner | client/src/pages/CampaignDetail.jsx:163-164 | nobody sees both the donate card and the owner's controls |
| CampaignDetail.CanDonateAgreesWithServer | client/src/pages/CampaignDetail.jsx:163 | the donate card shows exactly for users the donor gate passes, on active campaigns |
| CampaignDetail.Remaining | client/src/pages/CampaignDetail.jsx:277 | nothing remains exactly when the raised amount has reached the goal |
| CampaignDetail.RemainingAndProgress | client/src/pages/CampaignDetail.jsx:277 | the remaining amount is negative exactly when over-funded and at most 0 exactly when progress is 100% |
| CampaignDetail.AmountError | client/src/pages/CampaignDetail.jsx:66-69 | the amount passes exactly when it is filled in and positive |
| CampaignDetail.AmountGuardWeakerThanSchema | client/src/pages/CampaignDetail.jsx:66 | every amount the server accepts passes the dialog; an amount between 0 and 1 passes it and is refused by the server |
| CampaignDetail.CampaignDetailPage.constructor | client/src/pages/CampaignDetail.jsx:37-44 | the page starts with no campaign, an empty amount and nothing sent |
| CampaignDetail.CampaignDetailPage.FetchCampaign | client/src/pages/CampaignDetail.jsx:50-61 | shows the returned campaign, or the fetch error keeping what it showed |
| CampaignDetail.CampaignDetailPage.HandleDonation | client/src/pages/CampaignDetail.jsx:63-94 | an invalid amount sends nothing; otherwise the donation is sent, and success clears the amount and reloads the campaign while failure shows the message; the page error changes only when the reload fails |
| DonorDashboard.Populate | server/controllers/donationController.js:48-49 | each history entry carries its donation and its campaign, null when the campaign is gone |
| DonorDashboard.TotalDonated | client/src/pages/DonorDashboard.jsx:52 | the reduce over the history's amounts; TotalDonatedOfPopulate and TotalDonatedIsDonorsLedgerSum give its value |
| DonorDashboard.TotalDonatedOfPopulate | client/src/pages/DonorDashboard.jsx:52 | the total donated is the sum of the donations |
| DonorDashboard.TotalDonatedIsDonorsLedgerSum | client/src/pages/DonorDashboard.jsx:52 | the total donated is the sum of all the donor's donations in the ledger |
| DonorDashboard.TotalDonatedAtLeastCount | client/src/pages/DonorDashboard.jsx:52 | the total is at least the number of donations |
| DonorDashboard.SupportedIds | client/src/pages/DonorDashboard.jsx:53 | the set of the history's populated campaign ids; SupportedIdsAtMostCount bounds it |
| DonorDashboard.SupportedIdsAtMostCount | client/src/pages/DonorDashboard.jsx:53 | there are no more distinct campaigns than donations |
| DonorDashboard.CampaignsSupported | client/src/pages/DonorDashboard.jsx:53 | the count never exceeds the number of donations and is at least 1 when the donor gave to campaigns that all still exist |
| DonorDashboard.SupportedAreLiveCampaigns | client/src/pages/DonorDashboard.jsx:53 | the count is the number of distinct stored campaigns the donations went to |
| DonorDashboard.CampaignsSupportedAsWritten | client/src/pages/DonorDashboard.jsx:53 | as written, the count fails exactly when some campaign of the history is gone |
| DonorDashboard.DeletedCampaignBreaksCount | client/src/pages/DonorDashboard.jsx:53 | deleting a campaign a donor gave to makes the as-written count fail |
| DonorDashboard.AverageDonation | client/src/pages/DonorDashboard.jsx:54 | average times count is the total, and 0 without donations |
| DonorDashboard.AverageAtLeastMinimum | client/src/pages/DonorDashboard.jsx:54 | the average of a non-empty history is at least 1 |
| DonorDashboard.AverageNotRounded | client/src/pages/DonorDashboard.jsx:54 | the donor's average is not rounded to the cent, unlike the NGO statistics |
| NgoDashboard.RemoveCampaign | client/src/pages/NGODashboard.jsx:56 | the list keeps exactly the entries with another id |
| NgoDashboard.IdCountZero | client/src/pages/NGODashboard.jsx:56 | no entry carries the id exactly when the count of such entries is 0 |
| NgoDashboard.RemoveCampaignCount | client/src/pages/NGODashboard.jsx:56 | removal takes out exactly the entries with that id |
| NgoDashboard.IdCountDistinct | client/src/pages/NGODashboard.jsx:56 | in a list of distinct ids an id occurs at most once |
| NgoDashboard.RemoveListedCampaign | client/src/pages/NGODashboard.jsx:55-56 | a successful delete shortens the list by one when the campaign was listed and leaves it unchanged otherwise |
| NgoDashboard.ScanDistinct | server/controllers/campaignController.js:146-148 | the server's list of an NGO's campaigns holds each campaign once |
| NgoDashboard.AcceptedIdsStep | server/controllers/campaignController.js:146 | raising the id bound by one adds that id exactly when its record is accepted |
| NgoDashboard.ScanCount | server/controllers/campaignController.js:146 | the list is as long as the number of matching stored campaigns |
| NgoDashboard.TotalCampaignsCountsOwned | client/src/pages/NGODashboard.jsx:127 | Total Campaigns counts each of the owner's stored campaigns once |
| NgoDashboard.RecentShown | client/src/pages/NGODashboard.jsx:280-290 | at most the first five recent donations, shown only when there are some |
| NgoDashboard.RecentShownAreEarliest | client/src/pages/NGODashboard.jsx:290 | with the server's statistics the dashboard shows the five earliest owned donations |
| NgoDashboard.NgoDashboardPage.constructor | client/src/pages/NGODashboard.jsx:25-28 | the page starts with no campaigns and no statistics |
| NgoDashboard.NgoDashboardPage.FetchData | client/src/pages/NGODashboard.jsx:34-50 | both lists are shown only when both requests succeed, otherwise the fetch error |
| NgoDashboard.NgoDashboardPage.HandleDeleteCampaign | client/src/pages/NGODashboard.jsx:52-65 | nothing happens without confirmation; a failed delete alerts and changes nothing; a successful one drops the campaign and reloads the statistics |
| Home.BuildParams | client/src/pages/Home.jsx:42-48 | category is sent exactly when not 'all', search exactly when non-empty |
| Home.HomeListing | client/src/pages/Home.jsx:39-58 | the page lists exactly the active stored campaigns of the selected category that match the search term |
| Home.TotalRaised | client/src/pages/Home.jsx:130 | the reduce over the listed raised amounts; TotalRaisedAppend and TotalRaisedBoundsEach state its properties |
| Home.TotalRaisedAppend | client/src/pages/Home.jsx:130 | the total raised of two lists is the sum of their totals |
| Home.TotalRaisedBoundsEach | client/src/pages/Home.jsx:130 | the total raised is never negative and at least any shown campaign's raised amount |
| Home.EmptyStateMessage | client/src/pages/Home.jsx:241-243 | the filter hint exactly when a search or a category is active, otherwise the invitation |
| Home.EmptyStateMatchesRequest | client/src/pages/Home.jsx:241-243 | the invitation is shown exactly when the request carried no parameter |
| Home.HomePage.constructor | client/src/pages/Home.jsx:21-25 | the page starts on 'all' with an empty search |
| Home.HomePage.FetchCampaigns | client/src/pages/Home.jsx:39-58 | sends the current controls and shows the result, or the fetch error keeping the list |
| Home.HomePage.SetFilters | client/src/pages/Home.jsx:35-37 | changing the controls fetches again with the new values |

## Left out

- JWT signing and verification are a parameter, a function from token to user id. The user collection is a map.
- The MongoDB `$regex` search is modelled as a case-insensitive substring match over ASCII. Regular-expression metacharacters in a search term are not modelled.
- Mongoose reports the failing paths of a validation error in the order it validates them. The model lists them in schema field order.
- Mongoose `populate` is modelled only where a page reads the result, in the donor history. Elsewhere records keep their raw references.
- ObjectId casting is not modelled. A malformed id, which the server answers with 500, is treated like a missing one.
- Prototype keys of the per-title object and of the colour table are not modelled. A title or category such as `constructor` would behave differently.
- Amounts are exact reals, so IEEE-754 rounding of sums and quotients is not modelled. Currency formatting and date formatting are not modelled either.
- A numeric input is either empty or text that parses. Text that parses to NaN, and JavaScript's string-to-number coercion, are not modelled.
- Concurrency is not modelled. Each server operation and each page handler runs to completion. Interleaved requests and React's batched or stale state are out of scope.
- JSX rendering and the loading spinners are not modelled, except the `loading` and `saving` flags of the handlers. The dialog's two-second close timer, navigation and `window.confirm` are not modelled either; the confirmation is a parameter.
- `protect` can answer twice: 401 'token failed', then 401 'no token' when the header is exactly 'Bearer'. Only the first answer is modelled.
- `localStorage.setItem` with an undefined token, which stores the string "undefined", is not modelled. The stored token is an optional string.
- The auth routes, the User model and the Layout component are not part of this model.
- Ledger.Store.MakeDonation: a failure of `Donation.create` other than validation is not modelled, and neither is a failure of the final populate.
- DonationController.AddToGroups: the per-title entries are kept in insertion order. A JavaScript object lists keys that read as array indices, such as a campaign titled "2024", first and in numeric order, so the serialised `donationsByCampaign` can list such titles in a different order. The counts and totals are not affected.
- DonationController.AddToGroupsTitles: "a new title goes to the end" holds of the entry list, not of the key order of the serialised object for index-like titles, as the line above says.
- Ordering: the model's clock strictly increases and the store keeps donations in insertion order, so creation, timestamp and stored order are one order. `Date.now` can give two records the same millisecond, and `sort({createdAt: -1})` or `sort({donatedAt: -1})` then leaves their order unspecified. The unsorted `Donation.find` behind the NGO statistics returns MongoDB's natural order, which is not guaranteed to be insertion order. "Newest first", "the earliest ten" of the statistics and RecentShownAreEarliest hold only under that single-order assumption.
- DonorDashboard: the donation-history fetch is a plain assignment of the reply and is not modelled as a page class. Its figures are modelled on the fetched list.

## Findings

| source | as written | input that shows it | evidently intended | confidence | as-written member | corrected member |
|---|---|---|---|---|---|---|
| client/src/pages/DonorDashboard.jsx:53 | counts the distinct `campaignId._id` of the history, reading the id of every populated campaign | a donor gave to a campaign whose NGO then deleted it; deleteCampaign keeps the donations, so the populated campaign is null and reading its id throws | count the distinct campaigns the donor supported that still exist, skipping entries without a campaign | not executed | DonorDashboard.CampaignsSupportedAsWritten | DonorDashboard.CampaignsSupported |

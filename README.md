# Pricing-request workflow — a Dafny model

This project models the core of a role-based pricing-request dashboard. Sales
representatives create pricing requests. Pricing analysts review, approve or
reject them. Approved requests become agreements.

The model covers five pieces of the TypeScript source:

- **types.ts** (module `Types`): the closed enumerations (seven statuses, three request
  types, two roles) and the record shapes, with the optional fields as `Option`.
- **App.tsx** (module `App`): the in-memory list of requests and the current user, as the
  class `AppState`. Its handlers create a request at the front of the list, set a status,
  replace a record, and switch the user. Each handler is specified by a pure function
  (`Created`, `StatusUpdated`, `Replaced`, `FindUser`). The class keeps an id invariant:
  the ids are pairwise distinct and are exactly `PR-2024-001` … `PR-2024-n`.
- **components/WorkflowBoard.tsx** (module `WorkflowBoard`): which requests each role sees
  (`Visible`), which status buttons a row shows (`OfferedActions`), the create-form payload,
  the edit form (class `Board`) and the status badge colours.
- **components/AgreementLibrary.tsx** (module `AgreementLibrary`): the agreement list, its
  badge class and the display defaults.
- **components/Dashboard.tsx** (module `Dashboard`): the pending and published counters.

Helper modules: `Wrappers` (Option), `Seqs` (`map`, `filter`, subsequences), `Js` (the
JavaScript built-ins the code relies on: truthiness and `||`, ASCII `toLowerCase`,
`includes`, `toString` and `padStart`) and `Search` (the customer-or-id search shared by the
workflow table and the agreement library).

The store does **not** check workflow transitions. `handleUpdateStatus` writes any status,
for anyone. The workflow rules exist only as the conditions that decide which buttons a row
shows. The model therefore has two layers:

- `CanTrigger(user, req, target)`, the transition table: a sales user submits their own
  draft; any pricing user starts a review; only the assigned analyst approves or rejects;
- the unguarded store functions in `App`.

Proved: every button on a visible row asks for a transition the table allows, and every
allowed transition has its button (`OfferedActionsAreGuarded`, `GuardedTransitionsAreOffered`).
Pressing one changes that one request by a legal transition (`BoardActionIsLegal`). The
store and the edit form accept any status (`StoreIsUnguarded`, `EditSetsAnyStatus`).

Where the code and its own comments or labels disagree, the model follows the code:

- components/WorkflowBoard.tsx:46 says analysts also see requests assigned to them. Line 47
  tests only `status !== 'Draft'`. `AssignedDraftHiddenFromAnalyst` shows that a draft
  assigned to an analyst stays hidden from that analyst.
- The agreement search placeholder (components/AgreementLibrary.tsx:78) mentions
  "service", but only the customer name and id are searched (`SearchReadsNameAndId`).
- The code has no workflow errors. It reports no invalid transition and no missing id, and
  the store does not check the acting user's role. A missing id is a silent no-op
  (`StatusUpdatedAbsent`, `ReplacedAbsent`). `handleCreateRequest` accepts a payload from
  anyone, but the board offers creation only to sales users: the "New Request" button and
  the form are rendered for the SALES role only (`OnlySalesUsersCreate`).

## Model

| member | source | states |
|---|---|---|
| Types.ParseStatus | types.ts:21 | a label reads back as the status whose label it is; a string that is no status's label reads as none |
| Types.StatusLabelRoundTrip | types.ts:21 | every status's label reads back as that status |
| Types.AllStatuses | types.ts:21 | the status list has exactly seven pairwise distinct entries |
| Types.StatusesClosed | types.ts:21 | every status is one of those seven |
| Types.ParseRequestType | types.ts:22 | 'New', 'Renewal', 'Spot Quote' read back as their type; nothing else is a type |
| Types.AllRequestTypes | types.ts:22 | the request-type list has exactly three pairwise distinct entries |
| Types.RequestTypesClosed | types.ts:22 | every request type is one of those three |
| Types.ParseRole | types.ts:9 | 'SALES' and 'PRICING' read back as their role; nothing else is a role |
| Js.OrElse | App.tsx:60 | `a \|\| b` yields `a` when it is present and non-empty, otherwise `b` |
| Js.OrDefault | components/AgreementLibrary.tsx:111 | `a \|\| 'literal'` yields `a` when present and non-empty, otherwise the literal |
| Js.LowerChar | components/WorkflowBoard.tsx:38-39 | an upper-case ASCII letter maps to its lower-case letter; every other character is kept |
| Js.Lower | components/WorkflowBoard.tsx:38-39 | lower-casing keeps the length and lower-cases each character in place |
| Js.LowerIdempotent | components/WorkflowBoard.tsx:38-39 | lower-casing twice equals lower-casing once |
| Js.IncludesEmpty | components/WorkflowBoard.tsx:38-39 | every string includes the empty string |
| Js.IncludesSelf | components/WorkflowBoard.tsx:38-39 | every string includes itself |
| Js.DigitChar | App.tsx:45 | a digit value maps to the decimal digit character of that value |
| Js.DecimalString | App.tsx:45 | `toString` of a non-negative integer is a non-empty string of digits |
| Js.DecimalRoundTrip | App.tsx:45 | reading back the decimal string of a number gives the number |
| Js.Repeat | App.tsx:45 | k copies of a character: length k, every position that character |
| Js.ZerosValue | App.tsx:45 | a string of zeros is all digits and denotes 0 |
| Js.LeadingZeros | App.tsx:45 | prefixing zeros to a digit string keeps it all digits and keeps its value |
| Js.PadStart | App.tsx:45 | `padStart(w, c)` keeps a string of length at least w; a shorter one becomes length w, ends with the original and starts with copies of c |
| Seqs.Map | App.tsx:55-64 | `map` keeps the length and applies the function at every index |
| Seqs.Filter | components/WorkflowBoard.tsx:37 | `filter` keeps only elements satisfying the predicate and never grows the list |
| Seqs.FilterMembership | components/WorkflowBoard.tsx:37 | an element is in the filtered list exactly when it is in the list and satisfies the predicate |
| Seqs.FilterMultiplicity | components/WorkflowBoard.tsx:37 | the filtered list holds every occurrence of each selected element and none of any other |
| Seqs.FilterIsSubsequence | components/WorkflowBoard.tsx:37 | the filtered list is a subsequence of the input: same order, nothing added |
| Seqs.FilterAppend | components/Dashboard.tsx:36-37 | filtering a concatenation concatenates the filtered parts |
| Seqs.FilterDisjointBound | components/Dashboard.tsx:36-37 | two filters whose predicates never hold together keep at most as many elements as the list has |
| App.SequenceNumberOfRequestId | App.tsx:45 | the id minted from k (`PR-2024-` and k padded to three digits) reads back as k |
| App.RequestIdInjective | App.tsx:45 | different sequence numbers give different ids |
| App.Complete | App.tsx:46-50 | the created record keeps every field of the payload and adds only `id` and `submittedDate` |
| App.Created | App.tsx:44-52 | creation adds one record at index 0 with the id minted from the old length plus one and the given date; the old records follow unchanged and in order |
| App.WithStatus | App.tsx:56-61 | the matching record gets the new status; its analyst becomes the given id if that is present and non-empty, else stays; nothing else changes |
| App.StatusUpdated | App.tsx:54-65 | the status update keeps length and order, leaves every record with another id unchanged and updates every record with the id |
| App.Replaced | App.tsx:67-69 | the replacement keeps length and order, leaves every record with another id unchanged and puts the new record, status included, where the id matches |
| App.Ids | App.tsx:55-68 | the id list has one entry per request, in order |
| App.AscendingIdsWellFormed | App.tsx:26-32 | a list whose i-th id is the (i+1)-th minted id has distinct ids that are exactly the first n minted ids |
| App.CreatedKeepsIds | App.tsx:44-52 | creation keeps the ids distinct and exactly `PR-2024-001` … `PR-2024-n` |
| App.StatusUpdatedKeepsIds | App.tsx:54-65 | a status update leaves every id in place |
| App.ReplacedKeepsIds | App.tsx:67-69 | a replacement leaves every id in place |
| App.SameIdsWellFormed | App.tsx:54-69 | a list with the same ids in the same places keeps the id invariant |
| App.StatusUpdatedAbsent | App.tsx:55-64 | with an id not in the list the status update changes nothing and raises no error |
| App.ReplacedAbsent | App.tsx:67-69 | with an id not in the list the replacement changes nothing and raises no error |
| App.StatusUpdatedExactlyOne | App.tsx:54-65 | with distinct ids the status update changes exactly the record at the id's index |
| App.FindUser | App.tsx:40 | a found user is in the list and has the id; when none is found no user has the id |
| App.UsersWellFormed | App.tsx:11-24 | ten seed users with distinct non-empty ids: five sales users, then five pricing users |
| App.InitialRequestsWellFormed | App.tsx:26-32 | the seed ids are `PR-2024-001` … `PR-2024-005`, distinct, and satisfy the id invariant |
| App.AppState.constructor | App.tsx:36-37 | the initial state is the first sales user and the seed requests, with the id invariant |
| App.AppState.SwitchUser | App.tsx:39-42 | the current user becomes the user with the id if there is one; otherwise it is unchanged |
| App.AppState.CreateRequest | App.tsx:44-52 | the list becomes `Created` of the old list and the id invariant is kept |
| App.AppState.UpdateStatus | App.tsx:54-65 | the list becomes `StatusUpdated` of the old list, with no transition check, and the id invariant is kept |
| App.AppState.UpdateRequest | App.tsx:67-69 | the list becomes `Replaced` of the old list, with no transition check, and the id invariant is kept |
| Search.EmptyTermMatches | components/WorkflowBoard.tsx:38-39 | an empty search term matches every request |
| Search.SearchIgnoresTermCase | components/AgreementLibrary.tsx:16-17 | lower-casing the term first does not change the outcome |
| Search.SearchReadsNameAndId | components/AgreementLibrary.tsx:16-17 | two requests with the same customer name and id match the same terms, whatever their service level |
| Search.OwnIdOrNameFound | components/WorkflowBoard.tsx:38-39 | searching for a request's own id or customer name, in any ASCII case, finds it |
| Search.LongTermMatchesNothing | components/WorkflowBoard.tsx:38-39 | a term longer than both the customer name and the id matches nothing |
| WorkflowBoard.Visible | components/WorkflowBoard.tsx:37-49 | the table is a subsequence of the requests; a sales user sees exactly their own matching requests, a pricing user exactly the matching non-draft requests; each shown request appears as often as in the store |
| WorkflowBoard.EmptySearchShowsRoleScope | components/WorkflowBoard.tsx:37-49 | with an empty search only the role filter decides visibility |
| WorkflowBoard.AssignedDraftHiddenFromAnalyst | components/WorkflowBoard.tsx:45-48 | a draft assigned to a pricing user is not visible to that user |
| WorkflowBoard.OfferedActionsAreGuarded | components/WorkflowBoard.tsx:252-287 | every button on a visible row requests a transition the table allows, passing the analyst id only when starting a review |
| WorkflowBoard.GuardedTransitionsAreOffered | components/WorkflowBoard.tsx:252-287 | every transition the table allows on a visible row has its button |
| WorkflowBoard.SalesButtonReliesOnFilter | components/WorkflowBoard.tsx:252 | the submit button does not test ownership; another representative's draft would get it if it were shown |
| WorkflowBoard.BoardActionIsLegal | components/WorkflowBoard.tsx:252-287 | pressing a button on a visible row changes only that request, by a legal transition with its analyst assignment |
| WorkflowBoard.StoreIsUnguarded | App.tsx:54-65 | the status update writes any target status to any request |
| WorkflowBoard.AgreementPhaseNotOnBoard | components/WorkflowBoard.tsx:252-287 | no button leads to In Agreement or Published, and none is shown on Approved, In Agreement, Published or Rejected requests |
| WorkflowBoard.SubmitPayload | components/WorkflowBoard.tsx:51-64 | the create payload is a draft owned by the current user with the form's customer, value, region and type, and nothing optional set |
| WorkflowBoard.OnlySalesUsersCreate | components/WorkflowBoard.tsx:83-90 | a pricing user never has the create form on screen; every payload the form can submit is owned by a sales user |
| WorkflowBoard.CreatedHeadsCreatorsTable | components/WorkflowBoard.tsx:51-64 | a request a sales user creates is a draft dated today and heads that user's table under an empty search |
| WorkflowBoard.StatusOptionsCoverAll | components/WorkflowBoard.tsx:118-130 | the status select offers all seven statuses, one option each |
| WorkflowBoard.EditSetsAnyStatus | components/WorkflowBoard.tsx:66-72 | saving an edited status writes it whatever the transition, changing only the edited request |
| WorkflowBoard.StatusBadgesDistinct | components/WorkflowBoard.tsx:13-22 | the badge colour map covers all seven statuses, with a different class for each |
| WorkflowBoard.Board.constructor | components/WorkflowBoard.tsx:27-35 | the form starts empty and hidden, with no open edit, type 'New' and region 'NAM'; every method of the class keeps the region at 'NAM' |
| WorkflowBoard.Board.Rows | components/WorkflowBoard.tsx:37-49 | the rows are a subsequence of the requests holding exactly the ones visible under the current search, each as often as in the store |
| WorkflowBoard.Board.SetFilter | components/WorkflowBoard.tsx:198-199 | the search field holds the typed term |
| WorkflowBoard.Board.ToggleNewForm | components/WorkflowBoard.tsx:83-90 | the new-request button, offered to sales users only, flips the form's visibility |
| WorkflowBoard.Board.CancelNewForm | components/WorkflowBoard.tsx:184 | cancel hides the form |
| WorkflowBoard.Board.SetNewCustomer | components/WorkflowBoard.tsx:168 | the customer input sets the customer only |
| WorkflowBoard.Board.SetNewValue | components/WorkflowBoard.tsx:172 | the value input sets the value only |
| WorkflowBoard.Board.SetNewType | components/WorkflowBoard.tsx:176 | the type select sets the type only |
| WorkflowBoard.Board.SubmitNew | components/WorkflowBoard.tsx:51-64 | submitting, possible only while the form is shown to a sales user and the required customer field (line 168) is filled, returns the payload built from the form with region 'NAM' and a non-empty customer name, hides the form and clears customer and value, keeping the type |
| WorkflowBoard.Board.StartEdit | components/WorkflowBoard.tsx:243-249 | the edit button opens the row's record for editing, for either role and any status |
| WorkflowBoard.Board.CancelEdit | components/WorkflowBoard.tsx:99 | closing the edit form discards the open record |
| WorkflowBoard.Board.EditCustomerName | components/WorkflowBoard.tsx:104 | changes the customer name of the open record only |
| WorkflowBoard.Board.EditValue | components/WorkflowBoard.tsx:109 | changes the value of the open record only |
| WorkflowBoard.Board.EditRegion | components/WorkflowBoard.tsx:113 | changes the region of the open record only |
| WorkflowBoard.Board.EditStatus | components/WorkflowBoard.tsx:118-130 | changes the status of the open record only, to any of the seven |
| WorkflowBoard.Board.EditServiceLevel | components/WorkflowBoard.tsx:136-147 | changes the service level of the open record only; the empty option stores an empty string |
| WorkflowBoard.Board.SaveEdit | components/WorkflowBoard.tsx:66-72 | saving hands the open record, if any, to the store and closes the form |
| AgreementLibrary.Agreements | components/AgreementLibrary.tsx:14-18 | the list is a subsequence of the requests holding exactly the Approved, In Agreement and Published ones that match the search, each as often as in the store |
| AgreementLibrary.EarlyAndRejectedNeverListed | components/AgreementLibrary.tsx:15 | Draft, Sales Review, Pricing Review and Rejected requests are never listed |
| AgreementLibrary.EmptySearchListsAllAgreements | components/AgreementLibrary.tsx:14-18 | an empty search lists every agreement-phase request |
| AgreementLibrary.AgreementBadgeByStatus | components/AgreementLibrary.tsx:98-101 | on a listed card the badge is green exactly for Published, indigo exactly for In Agreement, purple exactly for Approved |
| AgreementLibrary.ServiceLevelShown | components/AgreementLibrary.tsx:111 | a missing or empty service level shows as 'Standard'; any other shows unchanged |
| AgreementLibrary.ExpiryShown | components/AgreementLibrary.tsx:115 | a missing or empty expiration date shows as 'N/A'; any other shows unchanged |
| Dashboard.TotalPublished | components/Dashboard.tsx:40 | the published total is 1240 plus the published count |
| Dashboard.CountStatus | components/Dashboard.tsx:36-37 | the number of requests with a given status is at most the number of requests |
| Dashboard.PendingIsReviewCount | components/Dashboard.tsx:36 | pending approvals is the number of Sales Review requests plus the number of Pricing Review requests |
| Dashboard.PublishedIsCount | components/Dashboard.tsx:37 | the published count is the number of Published requests plus the number of Approved requests; In Agreement is not counted |
| Dashboard.CountersBounded | components/Dashboard.tsx:36-37 | pending plus published is at most the number of requests, as the two status sets are disjoint |
| Dashboard.UncountedStatuses | components/Dashboard.tsx:36-37 | a Draft, In Agreement or Rejected request adds to neither counter, wherever it stands |

## Left out

- components/PricingEngine.tsx: floating-point rate arithmetic with no workflow state.
- services/geminiService.ts and components/AnalysisTool.tsx: an asynchronous call to an external AI service, parsing of its reply, alerts and charts.
- `generatePDF` (components/AgreementLibrary.tsx:20-64): calls into a PDF library and reads the clock.
- components/Sidebar.tsx, the view switch in App.tsx and `ViewState`: navigation only.
- Dashboard charts, the static series and the fixed stat cards: hard-coded display data.
- Rendering and markup: only the records, the predicates and the component state are modelled.
- The current date (App.tsx:49): `CreateRequest` takes it as the parameter `today`.
- `value` is a whole number (`int`): JavaScript numbers are floating point, and `Number(...)` parsing of the inputs (which can give NaN) is left to the caller, which passes the parsed value in.
- `toLocaleString` formatting of amounts and totals.
- `toLowerCase` is modelled for ASCII letters only; full Unicode case mapping is not.
- React's asynchronous state updates and stale closures: each handler is modelled as running to completion on the current state.
- `comments` is carried as an optional field; no code in the core reads or writes it.
- App.FindUser: does not state that the first match is returned; the seed user ids are distinct (`App.UsersWellFormed`), so at most one user matches.

/**
 * The workflow table of WorkflowBoard.tsx: which requests each role sees, which
 * status changes the row buttons offer, the create-form payload and the edit form.
 * The buttons are the only place where workflow rules exist; the store behind
 * them (module App) applies whatever it is given.
 */
module WorkflowBoard {
  import opened Wrappers
  import opened Seqs
  import opened Types
  import opened Js
  import opened Search
  import opened App

  // ---------------------------------------------------------------- visibility

  /** The test `filteredRequests` applies to one row. */
  predicate VisibleRow(user: User, term: string, r: PricingRequest)
  {
    MatchesSearch(r, term) && if user.role == Sales then r.salesRepId == user.id else r.status != Draft
  }

  /**
   * `filteredRequests`: a sales user sees their own requests, a pricing user every
   * request that is not a draft, whoever it is assigned to; both only those matching the search.
   */
  function Visible(reqs: seq<PricingRequest>, user: User, term: string): (r: seq<PricingRequest>)
    ensures IsSubsequence(r, reqs)
    ensures user.role == Sales ==>
      forall x :: x in r <==> x in reqs && x.salesRepId == user.id && MatchesSearch(x, term)
    ensures user.role == Pricing ==>
      forall x :: x in r <==> x in reqs && x.status != Draft && MatchesSearch(x, term)
    ensures forall x :: multiset(r)[x] == if VisibleRow(user, term, x) then multiset(reqs)[x] else 0
  {
    var p := (x: PricingRequest) => VisibleRow(user, term, x);
    FilterMembership(reqs, p);
    FilterMultiplicity(reqs, p);
    FilterIsSubsequence(reqs, p);
    Filter(reqs, p)
  }

  /** With an empty search, the role filter alone decides what is shown. */
  lemma EmptySearchShowsRoleScope(reqs: seq<PricingRequest>, user: User, x: PricingRequest)
    requires x in reqs
    ensures x in Visible(reqs, user, "") <==>
      if user.role == Sales then x.salesRepId == user.id else x.status != Draft
  {
    EmptyTermMatches(x);
  }

  /**
   * A draft assigned to a pricing user stays hidden from that user: the code
   * tests only `status !== 'Draft'`, not the assignment its comment mentions.
   */
  lemma AssignedDraftHiddenFromAnalyst(reqs: seq<PricingRequest>, user: User, term: string, x: PricingRequest)
    requires user.role == Pricing && x.status == Draft && x.pricingAnalystId == Some(user.id)
    ensures x !in Visible(reqs, user, term)
  {
  }

  // ---------------------------------------------------------------- row actions and the guard

  /** A status change a row button asks the store for: the target and the analyst id passed along. */
  datatype Action = Action(target: Status, analystId: Option<string>)

  /** The status buttons shown on a row, as the JSX conditions decide. */
  function OfferedActions(user: User, req: PricingRequest): seq<Action>
  {
    (if user.role == Sales && req.status == Draft then [Action(SalesReview, None)] else [])
    + (if user.role == Pricing && req.status == SalesReview then [Action(PricingReview, Some(user.id))] else [])
    + (if user.role == Pricing && req.status == PricingReview && req.pricingAnalystId == Some(user.id)
       then [Action(Approved, None), Action(Rejected, None)] else [])
  }

  /**
   * The workflow's transition table: who may move a request from its status to `target`.
   * A sales user submits only their own draft; any pricing user starts a review; only the
   * assigned analyst approves or rejects.
   */
  predicate CanTrigger(user: User, req: PricingRequest, target: Status)
  {
    match (req.status, target)
    case (Draft, SalesReview) => user.role == Sales && req.salesRepId == user.id
    case (SalesReview, PricingReview) => user.role == Pricing
    case (PricingReview, Approved) => user.role == Pricing && req.pricingAnalystId == Some(user.id)
    case (PricingReview, Rejected) => user.role == Pricing && req.pricingAnalystId == Some(user.id)
    case _ => false
  }

  /** The analyst id a transition passes: the acting analyst when starting a review, none otherwise. */
  function AnalystFor(user: User, target: Status): Option<string>
  {
    if target == PricingReview then Some(user.id) else None
  }

  /** Every button on a visible row asks for a transition the table allows, with the analyst id it prescribes. */
  lemma OfferedActionsAreGuarded(reqs: seq<PricingRequest>, user: User, term: string, req: PricingRequest, a: Action)
    requires req in Visible(reqs, user, term)
    requires a in OfferedActions(user, req)
    ensures CanTrigger(user, req, a.target)
    ensures a.analystId == AnalystFor(user, a.target)
  {
  }

  /** Conversely, every transition the table allows on a visible row has its button. */
  lemma GuardedTransitionsAreOffered(reqs: seq<PricingRequest>, user: User, term: string, req: PricingRequest, target: Status)
    requires req in Visible(reqs, user, term)
    requires CanTrigger(user, req, target)
    ensures Action(target, AnalystFor(user, target)) in OfferedActions(user, req)
  {
  }

  /**
   * The sales button itself does not test ownership: it is the visibility filter that keeps
   * another representative's draft off the user's table.
   */
  lemma SalesButtonReliesOnFilter(user: User, req: PricingRequest)
    requires user.role == Sales && req.status == Draft && req.salesRepId != user.id
    ensures Action(SalesReview, None) in OfferedActions(user, req)
    ensures !CanTrigger(user, req, SalesReview)
  {
  }

  /** `before` becomes `after` by a transition of the table, with its analyst assignment and no other change. */
  predicate LegalTransition(user: User, before: PricingRequest, after: PricingRequest)
  {
    CanTrigger(user, before, after.status)
    && after.pricingAnalystId == (if after.status == PricingReview then Some(user.id) else before.pricingAnalystId)
    && after.(status := before.status, pricingAnalystId := before.pricingAnalystId) == before
  }

  /**
   * Pressing a button on a visible row changes that one request, by a legal transition,
   * and leaves every other request as it was.
   */
  lemma BoardActionIsLegal(reqs: seq<PricingRequest>, user: User, term: string, k: nat, a: Action)
    requires Distinct(Ids(reqs)) && k < |reqs|
    requires reqs[k] in Visible(reqs, user, term)
    requires a in OfferedActions(user, reqs[k])
    requires user.id != ""
    ensures k < |StatusUpdated(reqs, reqs[k].id, a.target, a.analystId)|
    ensures StatusUpdated(reqs, reqs[k].id, a.target, a.analystId)
            == reqs[k := StatusUpdated(reqs, reqs[k].id, a.target, a.analystId)[k]]
    ensures LegalTransition(user, reqs[k], StatusUpdated(reqs, reqs[k].id, a.target, a.analystId)[k])
  {
    OfferedActionsAreGuarded(reqs, user, term, reqs[k], a);
    StatusUpdatedExactlyOne(reqs, k, a.target, a.analystId);
  }

  /** The store itself checks nothing: any status can be written to any request through it. */
  lemma StoreIsUnguarded(reqs: seq<PricingRequest>, k: nat, target: Status)
    requires k < |reqs|
    ensures StatusUpdated(reqs, reqs[k].id, target, None)[k].status == target
  {
  }

  /** No button ever leads to In Agreement or Published, nor out of them. */
  lemma AgreementPhaseNotOnBoard(user: User, req: PricingRequest, target: Status)
    requires target in {InAgreement, Published} || req.status in {Approved, InAgreement, Published, Rejected}
    ensures !CanTrigger(user, req, target)
    ensures forall a :: a in OfferedActions(user, req) ==> a.target != target
  {
  }

  // ---------------------------------------------------------------- creating and editing

  /** The "New Request" button, and with it the create form, is rendered for sales users only. */
  predicate CreateOffered(user: User)
  {
    user.role == Sales
  }

  /** The payload `handleSubmitNew` hands to `onCreateRequest`. */
  function SubmitPayload(user: User, customer: string, value: int, region: string, kind: RequestType): (n: NewRequest)
    ensures n.status == Draft && n.salesRepId == user.id
    ensures n.customerName == customer && n.value == value && n.region == region && n.requestType == kind
    ensures n.pricingAnalystId == None && n.comments == None
    ensures n.effectiveDate == None && n.expirationDate == None && n.serviceLevel == None
  {
    NewRequest(customer, Draft, kind, value, region, user.id, None, None, None, None, None)
  }

  /**
   * A request a sales user creates is a draft dated `today`, and it heads that user's
   * table when the search is empty.
   */
  lemma CreatedHeadsCreatorsTable(reqs: seq<PricingRequest>, user: User, customer: string, value: int,
                                  region: string, kind: RequestType, today: string)
    requires user.role == Sales
    ensures Created(reqs, SubmitPayload(user, customer, value, region, kind), today)[0].status == Draft
    ensures Created(reqs, SubmitPayload(user, customer, value, region, kind), today)[0].submittedDate == today
    ensures |Visible(Created(reqs, SubmitPayload(user, customer, value, region, kind), today), user, "")| > 0
    ensures Visible(Created(reqs, SubmitPayload(user, customer, value, region, kind), today), user, "")[0]
            == Created(reqs, SubmitPayload(user, customer, value, region, kind), today)[0]
  {
    var r := Created(reqs, SubmitPayload(user, customer, value, region, kind), today);
    EmptyTermMatches(r[0]);
    assert VisibleRow(user, "", r[0]);
  }

  /** The values of the edit form's status select, in order. */
  function StatusOptions(): seq<string>
  {
    ["Draft", "Sales Review", "Pricing Review", "Approved", "In Agreement", "Published", "Rejected"]
  }

  /** The status select offers all seven statuses, one option each. */
  lemma StatusOptionsCoverAll()
    ensures |StatusOptions()| == |AllStatuses()|
    ensures forall i :: 0 <= i < |StatusOptions()| ==> ParseStatus(StatusOptions()[i]) == Some(AllStatuses()[i])
  {
  }

  /**
   * The edit path is unguarded: saving an edited status writes it to the store whatever the
   * transition, and in a store with distinct ids changes only the edited request.
   */
  lemma EditSetsAnyStatus(reqs: seq<PricingRequest>, k: nat, s: Status)
    requires Distinct(Ids(reqs)) && k < |reqs|
    ensures Replaced(reqs, reqs[k].(status := s)) == reqs[k := reqs[k].(status := s)]
  {
  }

  /** The colour classes of `StatusBadge`. */
  function StatusBadgeClass(s: Status): string
  {
    match s
    case Draft => "bg-gray-100 text-gray-700"
    case SalesReview => "bg-blue-100 text-blue-700"
    case PricingReview => "bg-[#FF6600]/10 text-[#FF6600]"
    case Approved => "bg-purple-100 text-purple-700"
    case InAgreement => "bg-indigo-100 text-indigo-700"
    case Published => "bg-green-100 text-green-700"
    case Rejected => "bg-red-100 text-red-700"
  }

  /** Every status has a badge, and no two statuses share one. */
  lemma StatusBadgesDistinct(s: Status, t: Status)
    requires s != t
    ensures StatusBadgeClass(s) != StatusBadgeClass(t)
  {
  }

  /**
   * A pricing user never has the create form on screen, whatever the form's state, so the
   * board gives them no way to produce a create payload; every payload it submits is owned
   * by a sales user.
   */
  lemma OnlySalesUsersCreate(b: Board, user: User)
    ensures user.role == Pricing ==> !b.NewFormShown(user)
    ensures b.NewFormShown(user) ==> SubmitPayload(user, b.newCustomer, b.newValue, b.newRegion, b.newType).salesRepId == user.id && user.role == Sales
  {
  }

  // ---------------------------------------------------------------- the component's form state

  class Board {
    var filter: string
    var showNewForm: bool
    var editingRequest: Option<PricingRequest>
    var newCustomer: string
    var newValue: int
    var newRegion: string
    var newType: RequestType

    /**
     * `setNewRegion` is never called, so the region of the create form stays 'NAM'; every
     * method of the class keeps this.
     */
    ghost predicate Valid()
      reads this
    {
      newRegion == "NAM"
    }

    constructor ()
      ensures Valid()
      ensures filter == "" && !showNewForm && editingRequest == None
      ensures newCustomer == "" && newValue == 0 && newType == New
    {
      filter := "";
      showNewForm := false;
      editingRequest := None;
      newCustomer := "";
      newValue := 0;
      newRegion := "NAM";
      newType := New;
    }

    /** The rows the table shows for the current search. */
    function Rows(requests: seq<PricingRequest>, currentUser: User): (r: seq<PricingRequest>)
      reads this
      ensures IsSubsequence(r, requests)
      ensures forall x :: x in r <==> x in requests && VisibleRow(currentUser, filter, x)
      ensures forall x :: multiset(r)[x] == if VisibleRow(currentUser, filter, x) then multiset(requests)[x] else 0
    {
      Visible(requests, currentUser, filter)
    }

    method SetFilter(term: string)
      requires Valid()
      modifies this`filter
      ensures Valid()
      ensures filter == term
    {
      filter := term;
    }

    /** The create form is on screen: it was opened and the current user is a sales user. */
    predicate NewFormShown(user: User)
      reads this
    {
      showNewForm && CreateOffered(user)
    }

    /** The "New Request" button, which only a sales user sees. */
    method ToggleNewForm(user: User)
      requires Valid()
      requires CreateOffered(user)
      modifies this`showNewForm
      ensures Valid()
      ensures showNewForm == !old(showNewForm)
    {
      showNewForm := !showNewForm;
    }

    method CancelNewForm()
      requires Valid()
      modifies this`showNewForm
      ensures Valid()
      ensures !showNewForm
    {
      showNewForm := false;
    }

    method SetNewCustomer(v: string)
      requires Valid()
      modifies this`newCustomer
      ensures Valid()
      ensures newCustomer == v
    {
      newCustomer := v;
    }

    /** `v` is the number the source parses from the input. */
    method SetNewValue(v: int)
      requires Valid()
      modifies this`newValue
      ensures Valid()
      ensures newValue == v
    {
      newValue := v;
    }

    method SetNewType(k: RequestType)
      requires Valid()
      modifies this`newType
      ensures Valid()
      ensures newType == k
    {
      newType := k;
    }

    /**
     * `handleSubmitNew`: returns the payload for `onCreateRequest`, hides the form and clears
     * the customer and value; the chosen type is kept. The customer input is `required`, so
     * the browser submits the form only with a non-empty customer name.
     */
    method SubmitNew(currentUser: User) returns (payload: NewRequest)
      requires Valid() && NewFormShown(currentUser)
      requires newCustomer != ""
      modifies this`showNewForm, this`newCustomer, this`newValue
      ensures Valid()
      ensures payload == SubmitPayload(currentUser, old(newCustomer), old(newValue), newRegion, newType)
      ensures payload.region == "NAM" && payload.customerName != ""
      ensures !showNewForm && newCustomer == "" && newValue == 0
    {
      payload := SubmitPayload(currentUser, newCustomer, newValue, newRegion, newType);
      showNewForm := false;
      newCustomer := "";
      newValue := 0;
    }

    /** The edit button, present on every visible row for both roles. */
    method StartEdit(req: PricingRequest)
      requires Valid()
      modifies this`editingRequest
      ensures Valid()
      ensures editingRequest == Some(req)
    {
      editingRequest := Some(req);
    }

    method CancelEdit()
      requires Valid()
      modifies this`editingRequest
      ensures Valid()
      ensures editingRequest == None
    {
      editingRequest := None;
    }

    method EditCustomerName(v: string)
      requires Valid()
      requires editingRequest.Some?
      modifies this`editingRequest
      ensures Valid()
      ensures editingRequest == Some(old(editingRequest).value.(customerName := v))
    {
      editingRequest := Some(editingRequest.value.(customerName := v));
    }

    /** `v` is the number the source parses from the input. */
    method EditValue(v: int)
      requires Valid()
      requires editingRequest.Some?
      modifies this`editingRequest
      ensures Valid()
      ensures editingRequest == Some(old(editingRequest).value.(value := v))
    {
      editingRequest := Some(editingRequest.value.(value := v));
    }

    method EditRegion(v: string)
      requires Valid()
      requires editingRequest.Some?
      modifies this`editingRequest
      ensures Valid()
      ensures editingRequest == Some(old(editingRequest).value.(region := v))
    {
      editingRequest := Some(editingRequest.value.(region := v));
    }

    /** Any of the seven statuses, with no transition check. */
    method EditStatus(s: Status)
      requires Valid()
      requires editingRequest.Some?
      modifies this`editingRequest
      ensures Valid()
      ensures editingRequest == Some(old(editingRequest).value.(status := s))
    {
      editingRequest := Some(editingRequest.value.(status := s));
    }

    /** The empty "Select Service..." option stores an empty string, not `undefined`. */
    method EditServiceLevel(v: string)
      requires Valid()
      requires editingRequest.Some?
      modifies this`editingRequest
      ensures Valid()
      ensures editingRequest == Some(old(editingRequest).value.(serviceLevel := Some(v)))
    {
      editingRequest := Some(editingRequest.value.(serviceLevel := Some(v)));
    }

    /** `handleEditSave`: hands the edited record to `onUpdateRequest`, if one is open, and closes the form. */
    method SaveEdit() returns (updated: Option<PricingRequest>)
      requires Valid()
      modifies this`editingRequest
      ensures Valid()
      ensures updated == old(editingRequest)
      ensures editingRequest == None
    {
      updated := editingRequest;
      editingRequest := None;
    }
  }
}

/** The closed enumerations and record shapes of the pricing-request workflow (types.ts). */
module Types {
  import opened Wrappers

  /** `UserRole = 'SALES' | 'PRICING'`. */
  datatype Role = Sales | Pricing

  /** A selectable actor; the role is a single value, so every user has exactly one. */
  datatype User = User(id: string, name: string, role: Role, avatar: string)

  /** The seven lifecycle states of a pricing request. */
  datatype Status = Draft | SalesReview | PricingReview | Approved | InAgreement | Published | Rejected

  /** The three kinds of pricing request (`type` in the source; a keyword in Dafny). */
  datatype RequestType = New | Renewal | SpotQuote

  datatype Comment = Comment(user: string, text: string, date: string)

  /**
   * A pricing request. The five `Option` fields are the optional ones (`?:`);
   * every other field is always present. `value` is a whole amount (see README).
   */
  datatype PricingRequest = PricingRequest(
    id: string,
    customerName: string,
    status: Status,
    requestType: RequestType,
    value: int,
    submittedDate: string,
    region: string,
    salesRepId: string,
    pricingAnalystId: Option<string>,
    comments: Option<seq<Comment>>,
    effectiveDate: Option<string>,
    expirationDate: Option<string>,
    serviceLevel: Option<string>)

  // ---------------------------------------------------------------- status labels

  /** The string literal the source uses for each status. */
  function StatusLabel(s: Status): string
  {
    match s
    case Draft => "Draft"
    case SalesReview => "Sales Review"
    case PricingReview => "Pricing Review"
    case Approved => "Approved"
    case InAgreement => "In Agreement"
    case Published => "Published"
    case Rejected => "Rejected"
  }

  /** Reads a status literal back; anything else is not a status. */
  function ParseStatus(t: string): (r: Option<Status>)
    ensures r.Some? ==> StatusLabel(r.value) == t
    ensures r.None? ==> forall s :: StatusLabel(s) != t
  {
    if t == "Draft" then Some(Draft)
    else if t == "Sales Review" then Some(SalesReview)
    else if t == "Pricing Review" then Some(PricingReview)
    else if t == "Approved" then Some(Approved)
    else if t == "In Agreement" then Some(InAgreement)
    else if t == "Published" then Some(Published)
    else if t == "Rejected" then Some(Rejected)
    else None
  }

  /** Every status has its own label, and the label reads back as that status. */
  lemma StatusLabelRoundTrip(s: Status)
    ensures ParseStatus(StatusLabel(s)) == Some(s)
  {
  }

  /** All statuses, in the order of the type declaration. */
  function AllStatuses(): (r: seq<Status>)
    ensures |r| == 7
    ensures forall i, j :: 0 <= i < j < |r| ==> r[i] != r[j]
  {
    [Draft, SalesReview, PricingReview, Approved, InAgreement, Published, Rejected]
  }

  /** The status enumeration is closed: every status is one of the seven. */
  lemma StatusesClosed(s: Status)
    ensures s in AllStatuses()
  {
  }

  // ---------------------------------------------------------------- request types

  function RequestTypeLabel(k: RequestType): string
  {
    match k
    case New => "New"
    case Renewal => "Renewal"
    case SpotQuote => "Spot Quote"
  }

  function ParseRequestType(t: string): (r: Option<RequestType>)
    ensures r.Some? ==> RequestTypeLabel(r.value) == t
    ensures r.None? ==> forall k :: RequestTypeLabel(k) != t
  {
    if t == "New" then Some(New)
    else if t == "Renewal" then Some(Renewal)
    else if t == "Spot Quote" then Some(SpotQuote)
    else None
  }

  function AllRequestTypes(): (r: seq<RequestType>)
    ensures |r| == 3
    ensures forall i, j :: 0 <= i < j < |r| ==> r[i] != r[j]
  {
    [New, Renewal, SpotQuote]
  }

  /** The request-type enumeration is closed: every type is one of the three. */
  lemma RequestTypesClosed(k: RequestType)
    ensures k in AllRequestTypes()
  {
  }

  function RoleLabel(role: Role): string
  {
    match role
    case Sales => "SALES"
    case Pricing => "PRICING"
  }

  function ParseRole(t: string): (r: Option<Role>)
    ensures r.Some? ==> RoleLabel(r.value) == t
    ensures r.None? ==> forall role :: RoleLabel(role) != t
  {
    if t == "SALES" then Some(Sales) else if t == "PRICING" then Some(Pricing) else None
  }
}

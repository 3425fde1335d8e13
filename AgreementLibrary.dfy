/** The agreement library of AgreementLibrary.tsx: which requests are listed, and how a card shows them. */
module AgreementLibrary {
  import opened Seqs
  import opened Types
  import opened Js
  import opened Search

  /** Approved, In Agreement and Published requests are agreements. */
  predicate InAgreementPhase(s: Status)
  {
    s == Published || s == InAgreement || s == Approved
  }

  /** `agreements`: the agreement-phase requests matching the search, in store order. */
  function Agreements(reqs: seq<PricingRequest>, term: string): (r: seq<PricingRequest>)
    ensures IsSubsequence(r, reqs)
    ensures forall x :: x in r <==> x in reqs && InAgreementPhase(x.status) && MatchesSearch(x, term)
    ensures forall x :: multiset(r)[x] == (if InAgreementPhase(x.status) && MatchesSearch(x, term) then multiset(reqs)[x] else 0)
  {
    var p := (x: PricingRequest) => InAgreementPhase(x.status) && MatchesSearch(x, term);
    FilterMembership(reqs, p);
    FilterMultiplicity(reqs, p);
    FilterIsSubsequence(reqs, p);
    Filter(reqs, p)
  }

  /** Draft, Sales Review, Pricing Review and Rejected requests are never listed. */
  lemma EarlyAndRejectedNeverListed(reqs: seq<PricingRequest>, term: string, x: PricingRequest)
    requires x.status in {Draft, SalesReview, PricingReview, Rejected}
    ensures x !in Agreements(reqs, term)
  {
  }

  /** With an empty search every agreement-phase request is listed. */
  lemma EmptySearchListsAllAgreements(reqs: seq<PricingRequest>, x: PricingRequest)
    ensures x in Agreements(reqs, "") <==> x in reqs && InAgreementPhase(x.status)
  {
    EmptyTermMatches(x);
  }

  /** The badge class of an agreement card. */
  function AgreementBadgeClass(s: Status): string
  {
    if s == Published then "bg-green-100 text-green-700"
    else if s == InAgreement then "bg-indigo-100 text-indigo-700"
    else "bg-purple-100 text-purple-700"
  }

  /** On a listed card the badge is green for Published, indigo for In Agreement and purple exactly for Approved. */
  lemma AgreementBadgeByStatus(s: Status)
    requires InAgreementPhase(s)
    ensures AgreementBadgeClass(s) == "bg-green-100 text-green-700" <==> s == Published
    ensures AgreementBadgeClass(s) == "bg-indigo-100 text-indigo-700" <==> s == InAgreement
    ensures AgreementBadgeClass(s) == "bg-purple-100 text-purple-700" <==> s == Approved
  {
  }

  /** `agr.serviceLevel || 'Standard'`: a missing or empty service level shows as 'Standard'. */
  function ServiceLevelShown(r: PricingRequest): (shown: string)
    ensures Truthy(r.serviceLevel) ==> shown == r.serviceLevel.value
    ensures !Truthy(r.serviceLevel) ==> shown == "Standard"
  {
    OrDefault(r.serviceLevel, "Standard")
  }

  /** `agr.expirationDate || 'N/A'`: a missing or empty expiration date shows as 'N/A'. */
  function ExpiryShown(r: PricingRequest): (shown: string)
    ensures Truthy(r.expirationDate) ==> shown == r.expirationDate.value
    ensures !Truthy(r.expirationDate) ==> shown == "N/A"
  {
    OrDefault(r.expirationDate, "N/A")
  }
}

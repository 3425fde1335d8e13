/**
 * The search test shared by the workflow table and the agreement library: a
 * case-insensitive substring test on the customer name or the request id.
 */
module Search {
  import opened Types
  import opened Js

  predicate MatchesSearch(r: PricingRequest, term: string)
  {
    Includes(Lower(r.customerName), Lower(term)) || Includes(Lower(r.id), Lower(term))
  }

  /** An empty search term matches every request. */
  lemma EmptyTermMatches(r: PricingRequest)
    ensures MatchesSearch(r, "")
  {
    assert Lower("") == "";
    IncludesEmpty(Lower(r.customerName));
  }

  /** The search ignores case in the term: lower-casing it first changes nothing. */
  lemma SearchIgnoresTermCase(r: PricingRequest, term: string)
    ensures MatchesSearch(r, Lower(term)) == MatchesSearch(r, term)
  {
    LowerIdempotent(term);
  }

  /** Only the customer name and the id are searched; every other field, `serviceLevel` included, is ignored. */
  lemma SearchReadsNameAndId(r: PricingRequest, r': PricingRequest, term: string)
    requires r.customerName == r'.customerName && r.id == r'.id
    ensures MatchesSearch(r, term) == MatchesSearch(r', term)
  {
  }

  /** Searching for a request's own id or customer name, in any ASCII case, finds it. */
  lemma OwnIdOrNameFound(r: PricingRequest, term: string)
    requires Lower(term) == Lower(r.id) || Lower(term) == Lower(r.customerName)
    ensures MatchesSearch(r, term)
  {
    IncludesSelf(Lower(r.id));
    IncludesSelf(Lower(r.customerName));
  }

  /** A term longer than both the customer name and the id matches nothing. */
  lemma LongTermMatchesNothing(r: PricingRequest, term: string)
    requires |term| > |r.customerName| && |term| > |r.id|
    ensures !MatchesSearch(r, term)
  {
  }
}

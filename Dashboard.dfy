/** The two live counters of Dashboard.tsx. */
module Dashboard {
  import opened Seqs
  import opened Types

  predicate IsPending(s: Status)
  {
    s == SalesReview || s == PricingReview
  }

  /** Published and Approved count as published; In Agreement does not. */
  predicate CountsAsPublished(s: Status)
  {
    s == Published || s == Approved
  }

  /** `pendingApprovals`. */
  function PendingApprovals(reqs: seq<PricingRequest>): nat
  {
    |Filter(reqs, (r: PricingRequest) => IsPending(r.status))|
  }

  /** `publishedCount`. */
  function PublishedCount(reqs: seq<PricingRequest>): nat
  {
    |Filter(reqs, (r: PricingRequest) => CountsAsPublished(r.status))|
  }

  /** `totalPublished`: a fixed base of 1240 plus the published count. */
  function TotalPublished(reqs: seq<PricingRequest>): (n: nat)
    ensures n >= 1240 && n - 1240 == PublishedCount(reqs)
  {
    1240 + PublishedCount(reqs)
  }

  /** How many requests have status `s`. */
  function CountStatus(reqs: seq<PricingRequest>, s: Status): (n: nat)
    ensures n <= |reqs|
  {
    if reqs == [] then 0 else (if reqs[0].status == s then 1 else 0) + CountStatus(reqs[1..], s)
  }

  /** The pending counter is the number of Sales Review requests plus the number of Pricing Review requests. */
  lemma {:induction false} PendingIsReviewCount(reqs: seq<PricingRequest>)
    ensures PendingApprovals(reqs) == CountStatus(reqs, SalesReview) + CountStatus(reqs, PricingReview)
  {
    if reqs != [] {
      PendingIsReviewCount(reqs[1..]);
    }
  }

  /** The published counter is the number of Published requests plus the number of Approved requests. */
  lemma {:induction false} PublishedIsCount(reqs: seq<PricingRequest>)
    ensures PublishedCount(reqs) == CountStatus(reqs, Published) + CountStatus(reqs, Approved)
  {
    if reqs != [] {
      PublishedIsCount(reqs[1..]);
    }
  }

  /** The two counters never count the same request, so together they are at most the number of requests. */
  lemma CountersBounded(reqs: seq<PricingRequest>)
    ensures PendingApprovals(reqs) + PublishedCount(reqs) <= |reqs|
  {
    FilterDisjointBound(reqs, (r: PricingRequest) => IsPending(r.status),
                        (r: PricingRequest) => CountsAsPublished(r.status));
  }

  /** A Draft, In Agreement or Rejected request adds to neither counter, wherever it stands. */
  lemma UncountedStatuses(a: seq<PricingRequest>, x: PricingRequest, b: seq<PricingRequest>)
    requires x.status in {Draft, InAgreement, Rejected}
    ensures PendingApprovals(a + [x] + b) == PendingApprovals(a + b)
    ensures PublishedCount(a + [x] + b) == PublishedCount(a + b)
  {
    var p := (r: PricingRequest) => IsPending(r.status);
    var q := (r: PricingRequest) => CountsAsPublished(r.status);
    FilterAppend(a + [x], b, p);
    FilterAppend(a, [x], p);
    FilterAppend(a, b, p);
    FilterAppend(a + [x], b, q);
    FilterAppend(a, [x], q);
    FilterAppend(a, b, q);
  }
}

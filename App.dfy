/**
 * The application state of App.tsx: the in-memory list of pricing requests, the
 * current user, the seed data, and the handlers that replace them.
 * The handlers do not check workflow transitions; the guard lives in WorkflowBoard.
 */
module App {
  import opened Wrappers
  import opened Seqs
  import opened Types
  import opened Js

  // ---------------------------------------------------------------- request ids

  const IdPrefix: string := "PR-2024-"

  /** The id minted for the `seqNo`-th request: the prefix, then `seqNo` left-padded with '0' to three digits. */
  function RequestId(seqNo: nat): string
  {
    IdPrefix + PadStart(DecimalString(seqNo), 3, '0')
  }

  /** The sequence number carried by an id of the form `PR-2024-<digits>`. */
  function SequenceNumber(id: string): Option<nat>
  {
    if |id| > |IdPrefix| && id[..|IdPrefix|] == IdPrefix && AllDigits(id[|IdPrefix|..])
    then Some(DecimalValue(id[|IdPrefix|..]))
    else None
  }

  /** A minted id reads back as the number it was minted from. */
  lemma SequenceNumberOfRequestId(k: nat)
    ensures SequenceNumber(RequestId(k)) == Some(k)
  {
    var digits := DecimalString(k);
    var padded := PadStart(digits, 3, '0');
    var id := RequestId(k);
    assert id[..|IdPrefix|] == IdPrefix;
    assert id[|IdPrefix|..] == padded;
    DecimalRoundTrip(k);
    if |digits| < 3 {
      assert padded == Repeat('0', 3 - |digits|) + digits;
      LeadingZeros(3 - |digits|, digits);
    }
  }

  /** Distinct sequence numbers give distinct ids. */
  lemma RequestIdInjective(j: nat, k: nat)
    requires RequestId(j) == RequestId(k)
    ensures j == k
  {
    SequenceNumberOfRequestId(j);
    SequenceNumberOfRequestId(k);
  }

  // ---------------------------------------------------------------- creation

  /** `Omit<PricingRequest, 'id' | 'submittedDate'>`: what a caller supplies to create a request. */
  datatype NewRequest = NewRequest(
    customerName: string,
    status: Status,
    requestType: RequestType,
    value: int,
    region: string,
    salesRepId: string,
    pricingAnalystId: Option<string>,
    comments: Option<seq<Comment>>,
    effectiveDate: Option<string>,
    expirationDate: Option<string>,
    serviceLevel: Option<string>)

  /** Drops `id` and `submittedDate` from a stored request. */
  function Omit(r: PricingRequest): NewRequest
  {
    NewRequest(r.customerName, r.status, r.requestType, r.value, r.region, r.salesRepId,
               r.pricingAnalystId, r.comments, r.effectiveDate, r.expirationDate, r.serviceLevel)
  }

  /** `{ ...newReq, id, submittedDate }`: keeps every supplied field and adds only the two missing ones. */
  function Complete(n: NewRequest, id: string, submittedDate: string): (r: PricingRequest)
    ensures Omit(r) == n
    ensures r.id == id && r.submittedDate == submittedDate
  {
    PricingRequest(id, n.customerName, n.status, n.requestType, n.value, submittedDate, n.region,
                   n.salesRepId, n.pricingAnalystId, n.comments, n.effectiveDate, n.expirationDate,
                   n.serviceLevel)
  }

  /**
   * `[req, ...requests]` after `handleCreateRequest`: one new record at the front, whose id is
   * minted from the old length plus one; the old records follow unchanged and in order.
   * `today` stands for the current date the source reads from the clock.
   */
  function Created(reqs: seq<PricingRequest>, n: NewRequest, today: string): (r: seq<PricingRequest>)
    ensures |r| == |reqs| + 1
    ensures r[1..] == reqs
    ensures r[0].id == RequestId(|reqs| + 1)
    ensures r[0].submittedDate == today && Omit(r[0]) == n
  {
    [Complete(n, RequestId(|reqs| + 1), today)] + reqs
  }

  // ---------------------------------------------------------------- status and record updates

  /** The record `handleUpdateStatus` builds for the matching request. */
  function WithStatus(req: PricingRequest, newStatus: Status, analystId: Option<string>): (r: PricingRequest)
    ensures r.status == newStatus
    ensures Truthy(analystId) ==> r.pricingAnalystId == analystId
    ensures !Truthy(analystId) ==> r.pricingAnalystId == req.pricingAnalystId
    ensures r.(status := req.status, pricingAnalystId := req.pricingAnalystId) == req
  {
    req.(status := newStatus, pricingAnalystId := OrElse(analystId, req.pricingAnalystId))
  }

  /** `requests.map(...)` in `handleUpdateStatus`: every record with the id gets the new status. */
  function StatusUpdated(reqs: seq<PricingRequest>, id: string, newStatus: Status, analystId: Option<string>)
    : (r: seq<PricingRequest>)
    ensures |r| == |reqs|
    ensures forall i :: 0 <= i < |reqs| && reqs[i].id != id ==> r[i] == reqs[i]
    ensures forall i :: 0 <= i < |reqs| && reqs[i].id == id ==> r[i] == WithStatus(reqs[i], newStatus, analystId)
  {
    Map(reqs, (req: PricingRequest) => if req.id == id then WithStatus(req, newStatus, analystId) else req)
  }

  /** `requests.map(...)` in `handleUpdateRequest`: the record with the same id is replaced wholesale. */
  function Replaced(reqs: seq<PricingRequest>, updated: PricingRequest): (r: seq<PricingRequest>)
    ensures |r| == |reqs|
    ensures forall i :: 0 <= i < |reqs| && reqs[i].id != updated.id ==> r[i] == reqs[i]
    ensures forall i :: 0 <= i < |reqs| && reqs[i].id == updated.id ==> r[i] == updated
  {
    Map(reqs, (req: PricingRequest) => if req.id == updated.id then updated else req)
  }

  // ---------------------------------------------------------------- ids in the store

  function Ids(reqs: seq<PricingRequest>): (r: seq<string>)
    ensures |r| == |reqs|
    ensures forall i :: 0 <= i < |reqs| ==> r[i] == reqs[i].id
  {
    Map(reqs, (req: PricingRequest) => req.id)
  }

  predicate Distinct(xs: seq<string>)
  {
    forall i, j :: 0 <= i < j < |xs| ==> xs[i] != xs[j]
  }

  /** The ids of the first `n` requests ever minted. */
  ghost function IdRange(n: nat): set<string>
  {
    set k | 1 <= k <= n :: RequestId(k)
  }

  ghost function IdSet(reqs: seq<PricingRequest>): set<string>
  {
    set i | 0 <= i < |reqs| :: reqs[i].id
  }

  /** The store's id invariant: the ids are pairwise distinct and are exactly the first |reqs| minted ids. */
  ghost predicate WellFormedIds(reqs: seq<PricingRequest>)
  {
    Distinct(Ids(reqs)) && IdSet(reqs) == IdRange(|reqs|)
  }

  /** A store whose i-th id is the (i+1)-th minted id satisfies the invariant. */
  lemma AscendingIdsWellFormed(reqs: seq<PricingRequest>)
    requires forall i :: 0 <= i < |reqs| ==> reqs[i].id == RequestId(i + 1)
    ensures WellFormedIds(reqs)
  {
    forall i, j | 0 <= i < j < |reqs|
      ensures Ids(reqs)[i] != Ids(reqs)[j]
    {
      if reqs[i].id == reqs[j].id {
        RequestIdInjective(i + 1, j + 1);
      }
    }
    forall x | x in IdRange(|reqs|)
      ensures x in IdSet(reqs)
    {
      var k :| 1 <= k <= |reqs| && RequestId(k) == x;
      assert reqs[k - 1].id == x;
    }
  }

  /** Creating a request keeps the id invariant: the new id has never been minted before. */
  lemma {:induction false} CreatedKeepsIds(reqs: seq<PricingRequest>, n: NewRequest, today: string)
    requires WellFormedIds(reqs)
    ensures WellFormedIds(Created(reqs, n, today))
  {
    var r := Created(reqs, n, today);
    var m := |reqs|;
    var minted := RequestId(m + 1);
    if minted in IdRange(m) {
      var k :| 1 <= k <= m && RequestId(k) == minted;
      RequestIdInjective(k, m + 1);
    }
    forall i, j | 0 <= i < j < |r|
      ensures Ids(r)[i] != Ids(r)[j]
    {
      assert r[j] == reqs[j - 1];
      if i == 0 {
        assert reqs[j - 1].id in IdSet(reqs);
      } else {
        assert r[i] == reqs[i - 1];
        assert Ids(reqs)[i - 1] != Ids(reqs)[j - 1];
      }
    }
    assert IdSet(r) == IdSet(reqs) + {minted} by {
      forall x | x in IdSet(r) ensures x in IdSet(reqs) + {minted} {
        var i :| 0 <= i < |r| && r[i].id == x;
        if i > 0 { assert r[i] == reqs[i - 1]; }
      }
      forall x | x in IdSet(reqs) ensures x in IdSet(r) {
        var i :| 0 <= i < |reqs| && reqs[i].id == x;
        assert r[i + 1] == reqs[i];
      }
      assert r[0].id == minted;
    }
    assert IdRange(m + 1) == IdRange(m) + {minted};
  }

  /** `handleUpdateStatus` keeps every id in place. */
  lemma StatusUpdatedKeepsIds(reqs: seq<PricingRequest>, id: string, newStatus: Status, analystId: Option<string>)
    ensures Ids(StatusUpdated(reqs, id, newStatus, analystId)) == Ids(reqs)
  {
  }

  /** `handleUpdateRequest` keeps every id in place: the replacement carries the id it replaces. */
  lemma ReplacedKeepsIds(reqs: seq<PricingRequest>, updated: PricingRequest)
    ensures Ids(Replaced(reqs, updated)) == Ids(reqs)
  {
  }

  /** Same ids in the same places means the same id invariant. */
  lemma SameIdsWellFormed(a: seq<PricingRequest>, b: seq<PricingRequest>)
    requires Ids(a) == Ids(b)
    requires WellFormedIds(a)
    ensures WellFormedIds(b)
  {
  }

  /** With an id that is not in the store, `handleUpdateStatus` changes nothing. */
  lemma StatusUpdatedAbsent(reqs: seq<PricingRequest>, id: string, newStatus: Status, analystId: Option<string>)
    requires id !in Ids(reqs)
    ensures StatusUpdated(reqs, id, newStatus, analystId) == reqs
  {
  }

  /** With an id that is not in the store, `handleUpdateRequest` changes nothing. */
  lemma ReplacedAbsent(reqs: seq<PricingRequest>, updated: PricingRequest)
    requires updated.id !in Ids(reqs)
    ensures Replaced(reqs, updated) == reqs
  {
  }

  /** In a store with distinct ids, `handleUpdateStatus` changes the one record at the id's index and no other. */
  lemma StatusUpdatedExactlyOne(reqs: seq<PricingRequest>, k: nat, newStatus: Status, analystId: Option<string>)
    requires Distinct(Ids(reqs)) && k < |reqs|
    ensures StatusUpdated(reqs, reqs[k].id, newStatus, analystId)
            == reqs[k := WithStatus(reqs[k], newStatus, analystId)]
  {
  }

  // ---------------------------------------------------------------- users and seed data

  /** `USERS`: five sales users and five pricing users. */
  function Users(): seq<User>
  {
    [ User("S1", "Sarah Sales", Sales, "SS"),
      User("S2", "Steve Seller", Sales, "SS"),
      User("S3", "Sam Strategist", Sales, "SS"),
      User("S4", "Sandy Spot", Sales, "SS"),
      User("S5", "Saul Closer", Sales, "SC"),
      User("P1", "Pat Pricing", Pricing, "PP"),
      User("P2", "Penny Profit", Pricing, "PP"),
      User("P3", "Peter Planner", Pricing, "PP"),
      User("P4", "Polly Predictor", Pricing, "PP"),
      User("P5", "Paul Process", Pricing, "PP") ]
  }

  /** `users.find(u => u.id === id)`: the first user with the id, if any. */
  function FindUser(users: seq<User>, id: string): (r: Option<User>)
    ensures r.Some? ==> r.value in users && r.value.id == id
    ensures r.None? ==> forall i :: 0 <= i < |users| ==> users[i].id != id
  {
    if users == [] then None
    else if users[0].id == id then Some(users[0])
    else FindUser(users[1..], id)
  }

  /** The seed users have distinct, non-empty ids; the first five are sales users, the last five pricing users. */
  lemma UsersWellFormed()
    ensures |Users()| == 10
    ensures forall i, j :: 0 <= i < j < |Users()| ==> Users()[i].id != Users()[j].id
    ensures forall i :: 0 <= i < |Users()| ==> Users()[i].id != ""
    ensures forall i :: 0 <= i < |Users()| ==> (Users()[i].role == Sales <==> i < 5)
  {
  }

  /** `INITIAL_REQUESTS`. */
  function InitialRequests(): seq<PricingRequest>
  {
    [ PricingRequest("PR-2024-001", "Globex Logistics", SalesReview, Renewal, 450000, "2023-10-24", "APAC",
                     "S1", None, None, None, None, Some("International Priority")),
      PricingRequest("PR-2024-002", "Soylent Corp", Draft, New, 120000, "2023-10-25", "NAM",
                     "S1", None, None, None, None, None),
      PricingRequest("PR-2024-003", "Umbrella Inc", PricingReview, SpotQuote, 25000, "2023-10-25", "EMEA",
                     "S2", Some("P1"), None, None, None, None),
      PricingRequest("PR-2024-004", "Initech", InAgreement, Renewal, 890000, "2023-10-23", "NAM",
                     "S3", Some("P2"), None, Some("2023-11-01"), Some("2026-11-01"), Some("Priority Overnight")),
      PricingRequest("PR-2024-005", "Cyberdyne", Published, New, 2100000, "2023-10-20", "APAC",
                     "S1", Some("P1"), None, Some("2023-10-20"), Some("2025-10-20"), Some("Ground")) ]
  }

  /** The seed ids are the first five minted ids, so the seed satisfies the id invariant. */
  lemma InitialRequestsWellFormed()
    ensures WellFormedIds(InitialRequests())
  {
    var seed := InitialRequests();
    forall i | 0 <= i < 5 ensures seed[i].id == RequestId(i + 1) {
      var d := DecimalString(i + 1);
      assert d == [DigitChar(i + 1)];
      assert Repeat('0', 2) == "00";
      assert PadStart(d, 3, '0') == "00" + d;
    }
    AscendingIdsWellFormed(seed);
  }

  // ---------------------------------------------------------------- the App component's state

  class AppState {
    var currentUser: User
    var requests: seq<PricingRequest>

    ghost predicate Valid()
      reads this
    {
      currentUser in Users() && WellFormedIds(requests)
    }

    /** The initial state: the first sales user and the seed requests. */
    constructor ()
      ensures Valid()
      ensures currentUser == Users()[0] && requests == InitialRequests()
    {
      currentUser := Users()[0];
      requests := InitialRequests();
      InitialRequestsWellFormed();
    }

    /** `handleSwitchUser`: switches only to a known user id. */
    method SwitchUser(userId: string)
      requires Valid()
      modifies this`currentUser
      ensures Valid()
      ensures FindUser(Users(), userId).Some? ==> currentUser == FindUser(Users(), userId).value
      ensures FindUser(Users(), userId).None? ==> currentUser == old(currentUser)
    {
      var user := FindUser(Users(), userId);
      if user.Some? {
        currentUser := user.value;
      }
    }

    /** `handleCreateRequest`; `today` is the date the source reads from the clock. */
    method CreateRequest(newReq: NewRequest, today: string)
      requires Valid()
      modifies this`requests
      ensures Valid()
      ensures requests == Created(old(requests), newReq, today)
    {
      CreatedKeepsIds(requests, newReq, today);
      requests := Created(requests, newReq, today);
    }

    /** `handleUpdateStatus`: no transition check; any status, from anyone. */
    method UpdateStatus(id: string, newStatus: Status, analystId: Option<string>)
      requires Valid()
      modifies this`requests
      ensures Valid()
      ensures requests == StatusUpdated(old(requests), id, newStatus, analystId)
    {
      var updated := StatusUpdated(requests, id, newStatus, analystId);
      StatusUpdatedKeepsIds(requests, id, newStatus, analystId);
      SameIdsWellFormed(requests, updated);
      requests := updated;
    }

    /** `handleUpdateRequest`: wholesale replacement, status included. */
    method UpdateRequest(updatedReq: PricingRequest)
      requires Valid()
      modifies this`requests
      ensures Valid()
      ensures requests == Replaced(old(requests), updatedReq)
    {
      var updated := Replaced(requests, updatedReq);
      ReplacedKeepsIds(requests, updatedReq);
      SameIdsWellFormed(requests, updated);
      requests := updated;
    }
  }
}

/**
 The index of open phone number requests kept in redis (existing-pending-request.ts), for one
 profile: a sorted set per sending location scoring each open request with the number of
 messages parked behind it, and a set per sending location of requests seen fulfilled.

 Identifiers are integers; their order stands for redis's lexicographic order of members.
 */
module PendingIndex {
  import opened Common
  import opened Sets
  import opened ReleaseSchedule

  /** A request as a member of the sets of its sending location. */
  datatype Member = Member(at: int, request: int)

  /** A row of phone_number_requests, as far as routing reads it. */
  datatype Request = Request(location: int, fulfilled: bool)

  datatype DecisionStage = PrevMapping | ExistingPhoneNumber | ExistingPendingRequest | NewPendingRequest

  /** A row of outbound_messages_awaiting_from_number. */
  datatype Awaiting = Awaiting(member: Member, payload: Payload, stage: DecisionStage)

  /** All sorted sets of the profile, keyed by member, and all its fulfilled sets. */
  datatype Index = Index(scores: map<Member, int>, fulfilled: set<Member>)

  // ---- zrangebyscore key -1 limit LIMIT 0 1

  function Offered(scores: map<Member, int>, at: int, limit: int): set<Member> {
    set k | k in scores && k.at == at && -1 <= scores[k] <= limit
  }

  predicate NoLaterThan(scores: map<Member, int>, a: Member, b: Member)
    requires a in scores && b in scores
  {
    scores[a] < scores[b] || (scores[a] == scores[b] && a.request <= b.request)
  }

  /** The least loaded request with room, ties broken by member; None exactly when none has room. */
  function FirstInRange(scores: map<Member, int>, at: int, limit: int): (r: Option<Member>)
    ensures r.None? <==> Offered(scores, at, limit) == {}
    ensures r.Some? ==> r.value in Offered(scores, at, limit)
    ensures r.Some? ==> forall k | k in Offered(scores, at, limit) :: NoLaterThan(scores, r.value, k)
  {
    var offered := Offered(scores, at, limit);
    if offered == {} then None else
      var loads := set k | k in offered :: scores[k];
      assert loads != {} by {
        var k := Pick(offered);
        assert scores[k] in loads;
      }
      var load := Least(loads);
      var requests := set k | k in offered && scores[k] == load :: k.request;
      assert requests != {} by {
        var k :| k in offered && scores[k] == load;
        assert k.request in requests;
      }
      var request := Least(requests);
      assert forall k | k in offered && scores[k] == load :: k == Member(at, k.request) && k.request in requests;
      assert forall k | k in offered :: scores[k] in loads;
      Some(Member(at, request))
  }

  /** That request is the only one least loaded. */
  lemma LeastLoadedIsUnique(scores: map<Member, int>, at: int, limit: int, k: Member)
    requires k in Offered(scores, at, limit)
    requires forall j | j in Offered(scores, at, limit) :: NoLaterThan(scores, k, j)
    ensures FirstInRange(scores, at, limit) == Some(k)
  {
    var first := FirstInRange(scores, at, limit).value;
    assert NoLaterThan(scores, k, first) && NoLaterThan(scores, first, k);
  }

  // ---- the event handlers

  function Score(index: Index, k: Member): int {
    if k in index.scores then index.scores[k] else 0
  }

  /** zadd key 0 id */
  function AddRequest(index: Index, k: Member): Index {
    index.(scores := index.scores[k := 0])
  }

  /** zincrby key 1 id, unless the request is in the fulfilled set */
  function CountMessage(index: Index, k: Member): Index {
    if k in index.fulfilled then index else index.(scores := index.scores[k := Score(index, k) + 1])
  }

  /** zrem from the sorted set, sadd to the fulfilled set */
  function MarkFulfilled(index: Index, k: Member): Index {
    Index(index.scores - {k}, index.fulfilled + {k})
  }

  // ---- hydrate

  function RowsOf(awaiting: map<int, Awaiting>, k: Member): set<int> {
    set m | m in awaiting && awaiting[m].member == k
  }

  /** Members the hydration query returns: those with rows, and unfulfilled requests without any. */
  function Recounted(awaiting: map<int, Awaiting>, requests: map<int, Request>): set<Member> {
    (set m | m in awaiting :: awaiting[m].member) +
    (set r | r in requests && !requests[r].fulfilled
             && (forall m | m in awaiting :: awaiting[m].member.request != r)
     :: Member(requests[r].location, r))
  }

  function Recount(awaiting: map<int, Awaiting>, requests: map<int, Request>): map<Member, int> {
    map k | k in Recounted(awaiting, requests) :: |RowsOf(awaiting, k)|
  }

  /** zadd overwrites the recounted members and leaves every other member alone. */
  function Hydrated(index: Index, awaiting: map<int, Awaiting>, requests: map<int, Request>): Index {
    index.(scores := index.scores + Recount(awaiting, requests))
  }

  /** The index as redis holds it; each method is one handler or query of the index. `limit` is the
      contact limit this process read first and remembers; `storedLimit` is the one in redis. */
  class RequestIndex {
    var scores: map<Member, int>
    var fulfilled: set<Member>
    var storedLimit: Option<int>
    const limit: int

    constructor (limit: int)
      ensures this.limit == limit && Contents() == Index(map[], {})
    {
      this.limit := limit;
      scores, fulfilled, storedLimit := map[], {}, None;
    }

    ghost function Contents(): Index
      reads this
    {
      Index(scores, fulfilled)
    }

    /** A request that can take one more message, none of the others there being less loaded; None only
        if every request of the location is over the limit. */
    method FindExisting(at: int) returns (r: Option<Member>)
      ensures r.None? <==> forall k | k in scores && k.at == at :: scores[k] < -1 || limit < scores[k]
      ensures r.Some? ==> r.value in Offered(scores, at, limit)
                          && forall k | k in Offered(scores, at, limit) :: NoLaterThan(scores, r.value, k)
    {
      r := FirstInRange(scores, at, limit);
      assert r.None? ==> forall k | k in scores && k.at == at :: k !in Offered(scores, at, limit);
    }

    method OnRequestInserted(k: Member)
      modifies this
      ensures Contents() == AddRequest(old(Contents()), k)
    {
      scores := scores[k := 0];
    }

    method OnMessageInserted(k: Member)
      modifies this
      ensures Contents() == CountMessage(old(Contents()), k)
    {
      var alreadyFulfilled := k in fulfilled;
      if !alreadyFulfilled {
        var current := if k in scores then scores[k] else 0;
        scores := scores[k := current + 1];
      }
    }

    method HandleFulfilment(k: Member)
      modifies this
      ensures Contents() == MarkFulfilled(old(Contents()), k)
    {
      scores := scores - {k};
      fulfilled := fulfilled + {k};
    }

    method Hydrate(awaiting: map<int, Awaiting>, requests: map<int, Request>, dailyContactLimit: int)
      modifies this
      ensures Contents() == Hydrated(old(Contents()), awaiting, requests)
      ensures storedLimit == Some(dailyContactLimit)
    {
      storedLimit := Some(dailyContactLimit);
      scores := scores + Recount(awaiting, requests);
    }
  }
}

/**
 The release schedule of resolve-messages-awaiting-from-number.ts: every parked message of a
 bought number gets a send_after computed from the running sum of segments, in order of
 original_created_at, divided by the profile's throughput limit.
 */
module ReleaseSchedule {
  import opened Sets

  /** What a message carries from the queue into every table. */
  datatype Payload = Payload(segments: nat, createdAt: int)

  /** A profile's throughput_limit and throughput_interval. */
  datatype Throughput = Throughput(limit: int, interval: nat)

  type Parcels = map<int, Payload>

  /** Segments carried by the messages in `ids`. */
  function Total(rows: Parcels, ids: set<int>): (total: nat)
    requires ids <= rows.Keys
  {
    if ids == {} then 0 else
      var x := Least(ids);
      rows[x].segments + Total(rows, ids - {x})
  }

  /** The rows at or before `m`: PostgreSQL's default window frame, which includes ties. */
  function UpTo(rows: Parcels, createdAt: int): set<int> {
    set x | x in rows && rows[x].createdAt <= createdAt
  }

  function Ties(rows: Parcels, createdAt: int): set<int> {
    set x | x in rows && rows[x].createdAt == createdAt
  }

  /** The window sum the statement calls nth_segment. */
  function NthSegment(rows: Parcels, m: int): nat
    requires m in rows
  {
    Total(rows, UpTo(rows, rows[m].createdAt))
  }

  /** PostgreSQL divides integers towards zero. */
  function Quotient(a: nat, b: int): int
    requires b != 0
  {
    if b > 0 then a / b else -(a / -b)
  }

  function WaitSlot(rows: Parcels, m: int, limit: int): int
    requires m in rows && limit != 0
  {
    Quotient(NthSegment(rows, m), limit)
  }

  function SendAfter(rows: Parcels, m: int, rate: Throughput, now: int): int
    requires m in rows && rate.limit != 0
  {
    now + WaitSlot(rows, m, rate.limit) * rate.interval
  }

  /** Any member may be taken out first. */
  lemma {:induction false} TotalMinus(rows: Parcels, ids: set<int>, x: int)
    requires ids <= rows.Keys && x in ids
    ensures Total(rows, ids) == rows[x].segments + Total(rows, ids - {x})
    decreases |ids|
  {
    var y := Least(ids);
    if x != y {
      TotalMinus(rows, ids - {y}, x);
      TotalMinus(rows, ids - {x}, y);
      assert ids - {y} - {x} == ids - {x} - {y};
    }
  }

  lemma {:induction false} TotalSplit(rows: Parcels, a: set<int>, b: set<int>)
    requires a <= rows.Keys && b <= rows.Keys && a !! b
    ensures Total(rows, a + b) == Total(rows, a) + Total(rows, b)
    decreases |a|
  {
    if a == {} {
      assert a + b == b;
    } else {
      var x := Least(a);
      TotalSplit(rows, a - {x}, b);
      TotalMinus(rows, a + b, x);
      assert a + b - {x} == (a - {x}) + b;
    }
  }

  lemma TotalSubset(rows: Parcels, a: set<int>, b: set<int>)
    requires a <= b <= rows.Keys
    ensures Total(rows, a) <= Total(rows, b)
  {
    TotalSplit(rows, a, b - a);
    assert a + (b - a) == b;
  }

  /** The latest message among `ids`. */
  lemma {:induction false} Latest(rows: Parcels, ids: set<int>) returns (m: int)
    requires ids <= rows.Keys && ids != {}
    ensures m in ids && forall x | x in ids :: rows[x].createdAt <= rows[m].createdAt
    decreases |ids|
  {
    m := Pick(ids);
    if ids != {m} {
      var other := Latest(rows, ids - {m});
      assert forall x | x in ids :: x == m || x in ids - {m};
      m := if rows[other].createdAt > rows[m].createdAt then other else m;
    }
  }

  lemma {:induction false} Earliest(rows: Parcels, ids: set<int>) returns (m: int)
    requires ids <= rows.Keys && ids != {}
    ensures m in ids && forall x | x in ids :: rows[m].createdAt <= rows[x].createdAt
    decreases |ids|
  {
    m := Pick(ids);
    if ids != {m} {
      var other := Earliest(rows, ids - {m});
      assert forall x | x in ids :: x == m || x in ids - {m};
      m := if rows[other].createdAt < rows[m].createdAt then other else m;
    }
  }

  lemma MultiplyOrder(a: int, b: int, c: nat)
    requires a <= b
    ensures a * c <= b * c
  {
  }

  lemma QuotientSplit(a: nat, limit: int)
    requires limit > 0
    ensures var q := Quotient(a, limit); 0 <= q && q * limit <= a < (q + 1) * limit
  {
    var q := a / limit;
    assert a == limit * q + a % limit && 0 <= a % limit < limit;
    assert limit * q == q * limit && (q + 1) * limit == q * limit + limit;
  }

  lemma QuotientAtMost(a: nat, limit: int, k: int)
    requires limit > 0
    ensures Quotient(a, limit) <= k <==> a <= (k + 1) * limit - 1
  {
    var q, n: nat := Quotient(a, limit), limit;
    QuotientSplit(a, limit);
    if q <= k {
      MultiplyOrder(q + 1, k + 1, n);
    } else {
      MultiplyOrder(k + 1, q, n);
    }
  }

  lemma QuotientAtLeast(a: nat, limit: int, k: int)
    requires limit > 0
    ensures Quotient(a, limit) >= k <==> a >= k * limit
  {
    var q, n: nat := Quotient(a, limit), limit;
    QuotientSplit(a, limit);
    if q >= k {
      MultiplyOrder(k, q, n);
    } else {
      MultiplyOrder(q + 1, k, n);
    }
  }

  lemma QuotientBounds(a: nat, limit: int, k: int)
    requires limit > 0
    ensures 0 <= Quotient(a, limit)
    ensures Quotient(a, limit) <= k <==> a <= (k + 1) * limit - 1
    ensures Quotient(a, limit) >= k <==> a >= k * limit
  {
    QuotientSplit(a, limit);
    QuotientAtMost(a, limit, k);
    QuotientAtLeast(a, limit, k);
  }

  lemma QuotientOrder(a: nat, b: nat, limit: int)
    requires a <= b && limit > 0
    ensures 0 <= Quotient(a, limit) <= Quotient(b, limit)
  {
    QuotientBounds(a, limit, Quotient(a, limit));
    QuotientBounds(b, limit, Quotient(a, limit));
  }

  /** However many messages are parked, slots 0..k release fewer than (k+1) * limit segments. */
  lemma SlotsUpToBound(rows: Parcels, limit: int, k: nat)
    requires limit > 0
    ensures Total(rows, set m | m in rows && WaitSlot(rows, m, limit) <= k) <= (k + 1) * limit - 1
  {
    var ids := set m | m in rows && WaitSlot(rows, m, limit) <= k;
    if ids == {} {
      assert (k + 1) * limit >= limit;
    } else {
      var last := Latest(rows, ids);
      TotalSubset(rows, ids, UpTo(rows, rows[last].createdAt));
      QuotientBounds(NthSegment(rows, last), limit, k);
    }
  }

  /** One slot releases at most limit - 1 segments more than the heaviest group of ties. */
  lemma SlotBound(rows: Parcels, limit: int, k: int, heaviest: nat)
    requires limit > 0
    requires forall m | m in rows :: Total(rows, Ties(rows, rows[m].createdAt)) <= heaviest
    ensures Total(rows, set m | m in rows && WaitSlot(rows, m, limit) == k) <= limit - 1 + heaviest
  {
    var ids := set m | m in rows && WaitSlot(rows, m, limit) == k;
    if ids != {} {
      var first := Earliest(rows, ids);
      var last := Latest(rows, ids);
      var start := rows[first].createdAt;
      var before := UpTo(rows, start) - Ties(rows, start);
      TotalSplit(rows, before, Ties(rows, start));
      assert before + Ties(rows, start) == UpTo(rows, start);
      TotalSplit(rows, before, ids);
      TotalSubset(rows, before + ids, UpTo(rows, rows[last].createdAt));
      QuotientBounds(NthSegment(rows, first), limit, k);
      QuotientBounds(NthSegment(rows, last), limit, k);
      assert (k + 1) * limit == k * limit + limit;
    }
  }

  /** An earlier message is never sent later, and ties are sent together. */
  lemma ReleaseInOrder(rows: Parcels, a: int, b: int, rate: Throughput, now: int)
    requires a in rows && b in rows && rate.limit > 0
    requires rows[a].createdAt <= rows[b].createdAt
    ensures now <= SendAfter(rows, a, rate, now) <= SendAfter(rows, b, rate, now)
    ensures rows[a].createdAt == rows[b].createdAt
            ==> SendAfter(rows, a, rate, now) == SendAfter(rows, b, rate, now)
  {
    TotalSubset(rows, UpTo(rows, rows[a].createdAt), UpTo(rows, rows[b].createdAt));
    var qa, qb := WaitSlot(rows, a, rate.limit), WaitSlot(rows, b, rate.limit);
    QuotientOrder(NthSegment(rows, a), NthSegment(rows, b), rate.limit);
    MultiplyOrder(0, qa, rate.interval);
    MultiplyOrder(qa, qb, rate.interval);
  }

  /** A wait of one number of intervals is no wait of another. */
  lemma WaitsDiffer(slot: int, k: int, interval: int)
    requires interval > 0
    ensures slot * interval == k * interval <==> slot == k
  {
    if slot < k {
      MultiplyOrder(slot + 1, k, interval);
    } else if k < slot {
      MultiplyOrder(k + 1, slot, interval);
    }
  }

  /** A message waits exactly as many whole intervals as the segments of all messages parked no later than
      it, its own and its ties' included, hold whole limits. A limit below zero puts it that much before
      now, since the division goes towards zero. */
  lemma SendAfterExactly(rows: Parcels, m: int, rate: Throughput, now: int, k: nat)
    requires m in rows && rate.limit != 0
    ensures var sum := Total(rows, set x | x in rows && rows[x].createdAt <= rows[m].createdAt);
            var size := if rate.limit > 0 then rate.limit else -rate.limit;
            var slots: int := if rate.limit > 0 then k else 0 - k;
            if rate.interval == 0 then SendAfter(rows, m, rate, now) == now
            else SendAfter(rows, m, rate, now) == now + slots * rate.interval <==> k * size <= sum < (k + 1) * size
  {
    var sum := Total(rows, set x | x in rows && rows[x].createdAt <= rows[m].createdAt);
    var size := if rate.limit > 0 then rate.limit else -rate.limit;
    QuotientBounds(sum, size, k);
    if rate.interval > 0 {
      WaitsDiffer(WaitSlot(rows, m, rate.limit), if rate.limit > 0 then k else 0 - k, rate.interval);
    }
  }
}

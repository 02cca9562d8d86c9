/**
 Searching area codes around a centre (find-suitable-area-codes.ts, geo.ts): candidates of the
 centre's state by distance, then those of other states, until the numbers they can provide add up
 to a minimum. The telco's answers are an input: `caps[i]` for the i-th candidate asked about.
 */
module AreaCodes {
  import opened Common
  import opened Sets

  // ---- candidates in order

  datatype AreaCode = AreaCode(digits: string)

  /** A zip code: its area code and state, and its distance from the centre. */
  datatype Zip = Zip(areaCode: AreaCode, state: string, distance: nat)

  /** `center` is the state of the centre, None if the centre is not a known zip code. */
  predicate InScope(zip: Zip, center: Option<string>, sameState: bool) {
    center.Some? && (zip.state == center.value) == sameState
  }

  /** The zips the query groups under an area code. */
  function Group(zips: set<Zip>, center: Option<string>, sameState: bool, code: AreaCode): set<Zip> {
    set z | z in zips && z.areaCode == code && InScope(z, center, sameState)
  }

  /** `d` is the least distance of the group. */
  ghost predicate Nearest(group: set<Zip>, d: nat) {
    (exists z :: z in group && z.distance == d) && forall z | z in group :: d <= z.distance
  }

  /** The rows of the candidate query: every area code with a zip in scope, once, by least distance. Rows
      at the same distance may come in any order, but in the same one every time. */
  ghost predicate IsRanking(zips: set<Zip>, center: Option<string>, sameState: bool, list: seq<AreaCode>) {
    && (forall i, j | 0 <= i < j < |list| :: list[i] != list[j])
    && (forall code :: code in list <==> Group(zips, center, sameState, code) != {})
    && (forall i, j, d: nat, e: nat | 0 <= i < j < |list|
          && Nearest(Group(zips, center, sameState, list[i]), d)
          && Nearest(Group(zips, center, sameState, list[j]), e) :: d <= e)
  }

  /** `a` is no further from the centre than `b`. */
  ghost predicate NoFurther(zips: set<Zip>, center: Option<string>, sameState: bool, a: AreaCode, b: AreaCode) {
    forall d: nat, e: nat
      | Nearest(Group(zips, center, sameState, a), d) && Nearest(Group(zips, center, sameState, b), e) ::
      d <= e
  }

  /** limit 1 offset: an area code in scope beyond the first `offset`, and none of the others beyond them
      nearer; None only if there is none. */
  method FindCandidateAreaCode(ghost zips: set<Zip>, ghost center: Option<string>, sameState: bool,
                               list: seq<AreaCode>, offset: nat) returns (r: Option<AreaCode>)
    requires IsRanking(zips, center, sameState, list) && offset <= |list|
    ensures r.Some? ==> Group(zips, center, sameState, r.value) != {} && r.value !in list[..offset]
    ensures forall code | Group(zips, center, sameState, code) != {} && code !in list[..offset] ::
              r.Some? && (r.value == code || NoFurther(zips, center, sameState, r.value, code))
    ensures r == if offset < |list| then Some(list[offset]) else None
  {
    r := if offset < |list| then Some(list[offset]) else None;
    forall code | Group(zips, center, sameState, code) != {} && code !in list[..offset]
      ensures r.Some? && (r.value == code || NoFurther(zips, center, sameState, r.value, code))
    {
      assert code in list && list == list[..offset] + list[offset..];
      var j :| offset <= j < |list| && list[j] == code;
    }
    if offset < |list| {
      assert list[offset] in list;
    }
  }

  /** The candidate the search comes to, by its place in the ranking of the state or the others. */
  method NextCandidate(ghost zips: set<Zip>, ghost center: Option<string>, sameState: bool,
                       same: seq<AreaCode>, other: seq<AreaCode>, offset: nat) returns (r: Option<AreaCode>)
    requires IsRanking(zips, center, true, same) && IsRanking(zips, center, false, other)
    requires offset <= if sameState then |same| else |other|
    ensures var list := if sameState then same else other;
            r == if offset < |list| then Some(list[offset]) else None
  {
    r := FindCandidateAreaCode(zips, center, sameState, if sameState then same else other, offset);
  }

  // ---- what the search should find

  function Positive(n: int): nat {
    if n > 0 then n else 0
  }

  /** What the first n candidates can provide. */
  function Total(caps: seq<int>, n: nat): nat
    requires n <= |caps|
  {
    if n == 0 then 0 else Total(caps, n - 1) + Positive(caps[n - 1])
  }

  /** The least number of candidates, of the first `most`, that reach the minimum; all if none does. */
  function EnoughOf(caps: seq<int>, min: int, most: nat): (n: nat)
    requires most <= |caps|
    ensures n <= most
    ensures n < most ==> Total(caps, n) >= min
    ensures forall k | 0 <= k < n :: Total(caps, k) < min
  {
    if most == 0 then 0 else
      var n := EnoughOf(caps, min, most - 1);
      if Total(caps, n) >= min then n else most
  }

  /** The length of the shortest prefix that adds up to the minimum, or of the whole. */
  function Enough(caps: seq<int>, min: int): (n: nat)
    ensures n <= |caps|
    ensures n < |caps| ==> Total(caps, n) >= min
    ensures forall k | 0 <= k < n :: Total(caps, k) < min
  {
    EnoughOf(caps, min, |caps|)
  }

  /** Enough is the only length with these properties. */
  lemma EnoughIs(caps: seq<int>, min: int, n: nat)
    requires n <= |caps| && (n < |caps| ==> Total(caps, n) >= min)
    requires forall k | 0 <= k < n :: Total(caps, k) < min
    ensures n == Enough(caps, min)
  {
    var m := Enough(caps, min);
    var least := if n <= m then n else m;
    assert least < |caps| ==> Total(caps, least) >= min;
  }

  /** What has been found after each candidate: those without capacity add nothing. */
  ghost predicate RunningSums(caps: seq<int>, sums: seq<int>) {
    |sums| == |caps| + 1 && sums[0] == 0
    && forall i | 0 <= i < |caps| :: sums[i + 1] == sums[i] + if caps[i] > 0 then caps[i] else 0
  }

  lemma {:induction false} TotalIsSum(caps: seq<int>, sums: seq<int>, n: nat)
    requires RunningSums(caps, sums) && n <= |caps|
    ensures Total(caps, n) == sums[n]
  {
    if n > 0 {
      TotalIsSum(caps, sums, n - 1);
    }
  }

  /** Enough is the one length at which the running sum first reaches the minimum, or of all candidates if it
      never does. */
  lemma EnoughExactly(caps: seq<int>, min: int, sums: seq<int>, n: nat)
    requires RunningSums(caps, sums)
    ensures n == Enough(caps, min)
            <==> n <= |caps| && (n < |caps| ==> sums[n] >= min) && forall k | 0 <= k < n :: sums[k] < min
  {
    forall k: nat | k <= |caps|
      ensures Total(caps, k) == sums[k]
    {
      TotalIsSum(caps, sums, k);
    }
    if n <= |caps| && (n < |caps| ==> sums[n] >= min) && forall k | 0 <= k < n :: sums[k] < min {
      EnoughIs(caps, min, n);
    }
  }

  /** Those of the first n candidates that have capacity, in order. */
  function WithCapacity(codes: seq<AreaCode>, caps: seq<int>, n: nat): seq<AreaCode>
    requires n <= |codes| && n <= |caps|
  {
    if n == 0 then [] else
      var before := WithCapacity(codes, caps, n - 1);
      if caps[n - 1] > 0 then before + [codes[n - 1]] else before
  }

  /** The capacities persisted on the way; a later answer for the same area code replaces an earlier one. */
  function Persisted(known: map<AreaCode, int>, codes: seq<AreaCode>, caps: seq<int>, n: nat): map<AreaCode, int>
    requires n <= |codes| && n <= |caps|
  {
    if n == 0 then known else
      var before := Persisted(known, codes, caps, n - 1);
      if caps[n - 1] > 0 then before[codes[n - 1] := caps[n - 1]] else before
  }

  /** `used` are the codes at the places `p`, in order, which are all those of the first n with capacity. */
  ghost predicate UsesPositive(codes: seq<AreaCode>, caps: seq<int>, n: nat, used: seq<AreaCode>, p: seq<nat>)
    requires n <= |codes| && n <= |caps|
  {
    && |p| == |used|
    && (forall i, j | 0 <= i < j < |p| :: p[i] < p[j])
    && (forall i | 0 <= i < |p| :: p[i] < n && used[i] == codes[p[i]])
    && (forall k: nat :: k in p <==> k < n && caps[k] > 0)
  }

  lemma {:induction false} WithCapacityExactly(codes: seq<AreaCode>, caps: seq<int>, n: nat) returns (p: seq<nat>)
    requires n <= |codes| && n <= |caps|
    ensures UsesPositive(codes, caps, n, WithCapacity(codes, caps, n), p)
  {
    if n == 0 {
      return [];
    }
    p := WithCapacityExactly(codes, caps, n - 1);
    if caps[n - 1] > 0 {
      assert forall i | 0 <= i < |p| :: p[i] in p;
      p := p + [n - 1];
    }
  }

  /** The last of the first n candidates with that code that has capacity. */
  ghost predicate LastAnswer(codes: seq<AreaCode>, caps: seq<int>, n: nat, code: AreaCode, k: nat)
    requires n <= |codes| && n <= |caps|
  {
    k < n && codes[k] == code && caps[k] > 0 && forall j | k < j < n && codes[j] == code :: caps[j] <= 0
  }

  /** A code is remembered with its last positive answer, or as it was known before if there is none. */
  ghost predicate Remembers(known: map<AreaCode, int>, codes: seq<AreaCode>, caps: seq<int>, n: nat,
                            now: map<AreaCode, int>)
    requires n <= |codes| && n <= |caps|
  {
    forall code ::
      && (forall k: nat | LastAnswer(codes, caps, n, code, k) :: code in now && now[code] == caps[k])
      && ((forall k | 0 <= k < n && codes[k] == code :: caps[k] <= 0) ==>
            (code in now <==> code in known) && (code in known ==> now[code] == known[code]))
  }

  lemma {:induction false} PersistedExactly(known: map<AreaCode, int>, codes: seq<AreaCode>, caps: seq<int>, n: nat)
    requires n <= |codes| && n <= |caps|
    ensures Remembers(known, codes, caps, n, Persisted(known, codes, caps, n))
  {
    if n > 0 {
      PersistedExactly(known, codes, caps, n - 1);
      forall code
        ensures forall k: nat | LastAnswer(codes, caps, n, code, k) ::
                  code in Persisted(known, codes, caps, n) && Persisted(known, codes, caps, n)[code] == caps[k]
      {
        forall k: nat | LastAnswer(codes, caps, n, code, k)
          ensures code in Persisted(known, codes, caps, n) && Persisted(known, codes, caps, n)[code] == caps[k]
        {
          if k < n - 1 {
            assert LastAnswer(codes, caps, n - 1, code, k);
          }
        }
      }
    }
  }

  // ---- the search as the job runs it

  /** The location's row and the capacities of the sending account. */
  class Database {
    var areaCodes: seq<AreaCode>
    var capacities: map<AreaCode, int>

    constructor (areaCodes: seq<AreaCode>, capacities: map<AreaCode, int>)
      ensures this.areaCodes == areaCodes && this.capacities == capacities
    {
      this.areaCodes, this.capacities := areaCodes, capacities;
    }
  }

  lemma PlaceInAll(same: seq<AreaCode>, other: seq<AreaCode>, sameState: bool, offset: nat, pos: nat)
    requires offset < if sameState then |same| else |other|
    requires pos == if sameState then offset else |same| + offset
    ensures pos < |same + other| && (same + other)[pos] == if sameState then same[offset] else other[offset]
  {
  }

  /** A candidate is kept and its capacity persisted if it has any, and the result saved. */
  method UseCandidate(db: Database, candidate: AreaCode, capacity: int, codes: seq<AreaCode>, found: int)
    returns (codes': seq<AreaCode>, found': int)
    modifies db
    ensures codes' == (if capacity > 0 then codes + [candidate] else codes) && found' == found + Positive(capacity)
    ensures db.areaCodes == codes'
    ensures db.capacities == if capacity > 0 then old(db.capacities)[candidate := capacity] else old(db.capacities)
  {
    codes', found' := codes, found;
    if capacity > 0 {
      codes', found' := codes + [candidate], found + capacity;
      db.capacities := db.capacities[candidate := capacity];
    }
    db.areaCodes := codes';
  }

  /** Uses the positive candidates of the shortest prefix that is enough, or of all of them, and leaves
      exactly these on the location unless the minimum asks for nothing. */
  method FindSuitableAreaCodes(db: Database, ghost zips: set<Zip>, ghost center: Option<string>,
                               same: seq<AreaCode>, other: seq<AreaCode>, caps: seq<int>, min: int)
    returns (areaCodesToUse: seq<AreaCode>, ghost places: seq<nat>)
    requires IsRanking(zips, center, true, same) && IsRanking(zips, center, false, other)
    requires |caps| == |same| + |other|
    modifies db
    ensures var n := Enough(caps, min);
            && UsesPositive(same + other, caps, n, areaCodesToUse, places)
            && Remembers(old(db.capacities), same + other, caps, n, db.capacities)
            && areaCodesToUse == WithCapacity(same + other, caps, n)
    ensures min > 0 ==> db.areaCodes == areaCodesToUse
    ensures min <= 0 ==> db.areaCodes == old(db.areaCodes)
  {
    ghost var all, known, saved := same + other, db.capacities, db.areaCodes;
    var suitableNumbersFound, offset, sameState := 0, 0, true;
    ghost var pos := 0;
    areaCodesToUse := [];
    while suitableNumbersFound < min
      invariant 0 <= pos <= |all|
      invariant 0 <= offset <= if sameState then |same| else |other|
      invariant pos == if sameState then offset else |same| + offset
      invariant suitableNumbersFound == Total(caps, pos)
      invariant areaCodesToUse == WithCapacity(all, caps, pos)
      invariant db.capacities == Persisted(known, all, caps, pos)
      invariant pos == 0 ==> db.areaCodes == saved
      invariant pos > 0 ==> db.areaCodes == areaCodesToUse
      invariant forall k | 0 <= k < pos :: Total(caps, k) < min
      decreases sameState, |all| - pos
    {
      var candidateAreaCode := NextCandidate(zips, center, sameState, same, other, offset);
      if candidateAreaCode.None? {
        if !sameState {
          db.areaCodes := areaCodesToUse;
          EnoughIs(caps, min, pos);
          places := WithCapacityExactly(all, caps, pos);
          PersistedExactly(known, all, caps, pos);
          return;
        }
        sameState, offset := false, 0;
        continue;
      }
      var capacity := caps[if sameState then offset else |same| + offset];
      PlaceInAll(same, other, sameState, offset, pos);
      areaCodesToUse, suitableNumbersFound := UseCandidate(db, candidateAreaCode.value, capacity,
                                                           areaCodesToUse, suitableNumbersFound);
      offset, pos := offset + 1, pos + 1;
    }
    EnoughIs(caps, min, pos);
    places := WithCapacityExactly(all, caps, pos);
    PersistedExactly(known, all, caps, pos);
    assert pos > 0 ==> Total(caps, 0) < min;
  }

  /** The first same-state candidate with capacity; None if and only if there is none. */
  method FindOneSuitableAreaCode(ghost zips: set<Zip>, ghost center: Option<string>,
                                 same: seq<AreaCode>, caps: seq<int>)
    returns (r: Option<AreaCode>, ghost at: nat)
    requires IsRanking(zips, center, true, same)
    requires |caps| == |same|
    ensures at <= |same| && forall k | 0 <= k < at :: caps[k] <= 0
    ensures if r.Some? then at < |same| && r.value == same[at] && caps[at] > 0 else at == |same|
    ensures r == FirstSuitable(same, caps, |same|)
  {
    var offset := 0;
    while true
      invariant 0 <= offset <= |same|
      invariant forall k | 0 <= k < offset :: caps[k] <= 0
      invariant FirstSuitable(same, caps, offset) == None
      decreases |same| - offset
    {
      var candidateAreaCode := FindCandidateAreaCode(zips, center, true, same, offset);
      if candidateAreaCode.None? {
        return None, offset;
      }
      if caps[offset] > 0 {
        FirstStays(same, caps, offset + 1, |same|);
        return candidateAreaCode, offset;
      }
      offset := offset + 1;
    }
  }

  // ---- what follows

  /** The first of n candidates that has capacity. */
  function FirstSuitable(codes: seq<AreaCode>, caps: seq<int>, n: nat): Option<AreaCode>
    requires n <= |codes| && n <= |caps|
  {
    if n == 0 then None else
      var before := FirstSuitable(codes, caps, n - 1);
      if before.Some? then before else if caps[n - 1] > 0 then Some(codes[n - 1]) else None
  }

  lemma {:induction false} FirstStays(codes: seq<AreaCode>, caps: seq<int>, n: nat, more: nat)
    requires n <= more <= |codes| && more <= |caps| && FirstSuitable(codes, caps, n).Some?
    ensures FirstSuitable(codes, caps, more) == FirstSuitable(codes, caps, n)
  {
    if n < more {
      FirstStays(codes, caps, n, more - 1);
    }
  }

  lemma {:induction false} HeadIsFirst(codes: seq<AreaCode>, caps: seq<int>, n: nat)
    requires n <= |codes| && n <= |caps|
    ensures var w := WithCapacity(codes, caps, n);
            FirstSuitable(codes, caps, n) == if w == [] then None else Some(w[0])
  {
    if n > 0 {
      HeadIsFirst(codes, caps, n - 1);
    }
  }

  /** Candidates are searched one list after the other. */
  lemma {:induction false} FirstInSame(same: seq<AreaCode>, other: seq<AreaCode>, caps: seq<int>, n: nat)
    requires n <= |same| && n <= |caps|
    ensures FirstSuitable(same + other, caps, n) == FirstSuitable(same, caps, n)
    ensures FirstSuitable(same, caps, n).None? ==> Total(caps, n) == 0 && WithCapacity(same + other, caps, n) == []
  {
    if n > 0 {
      FirstInSame(same, other, caps, n - 1);
      assert (same + other)[n - 1] == same[n - 1];
    }
  }

  lemma {:induction false} RestIsOther(same: seq<AreaCode>, other: seq<AreaCode>, caps: seq<int>, j: nat)
    requires |caps| == |same| + |other| && j <= |other| && WithCapacity(same + other, caps, |same|) == []
    ensures WithCapacity(same + other, caps, |same| + j) == WithCapacity(other, caps[|same|..], j)
  {
    if j > 0 {
      RestIsOther(same, other, caps, j - 1);
    }
  }

  /** Whenever some number is wanted, the long search stops in the centre's own state only at or after the
      one code that the short search finds. */
  lemma StopsAfterFirst(same: seq<AreaCode>, caps: seq<int>, min: int, n: nat)
    requires min > 0 && n <= |same| <= |caps| && Enough(caps, min) < n
    ensures FirstSuitable(same, caps, Enough(caps, min)).Some?
  {
    var stop := Enough(caps, min);
    FirstInSame(same, [], caps, stop);
    assert Total(caps, stop) >= min;
  }

  lemma FirstHeadsUsed(same: seq<AreaCode>, other: seq<AreaCode>, caps: seq<int>, min: int, n: nat)
    requires |caps| == |same| + |other| && min > 0 && n == Enough(caps, min)
    requires FirstSuitable(same, caps, |same|).Some?
    ensures FirstSuitable(same + other, caps, n) == FirstSuitable(same, caps, |same|)
  {
    if n < |same| {
      StopsAfterFirst(same, caps, min, |same|);
      FirstInSame(same, other, caps, n);
      FirstStays(same, caps, n, |same|);
    } else {
      FirstInSame(same, other, caps, |same|);
      FirstStays(same + other, caps, |same|, n);
    }
  }

  lemma NoneOfSameUsed(same: seq<AreaCode>, other: seq<AreaCode>, caps: seq<int>, min: int, n: nat)
    requires |caps| == |same| + |other| && min > 0 && n == Enough(caps, min)
    requires FirstSuitable(same, caps, |same|).None?
    ensures n >= |same| && WithCapacity(same + other, caps, n) == WithCapacity(other, caps[|same|..], n - |same|)
  {
    if n < |same| {
      StopsAfterFirst(same, caps, min, |same|);
      FirstStays(same, caps, n, |same|);
    } else {
      FirstInSame(same, other, caps, |same|);
      RestIsOther(same, other, caps, n - |same|);
    }
  }

  /** The one-code search agrees with the long one: whenever some number is wanted, an answer it finds is
      the first area code the long search uses, and if it finds none the long search uses no code of
      the centre's own state. */
  lemma {:induction false} OneAgreesWithMany(same: seq<AreaCode>, other: seq<AreaCode>, caps: seq<int>, min: int)
    requires |caps| == |same| + |other| && min > 0
    ensures var one := FirstSuitable(same, caps, |same|);
            var n := Enough(caps, min);
            var used := WithCapacity(same + other, caps, n);
            if one.Some? then used != [] && used[0] == one.value
            else n >= |same| && used == WithCapacity(other, caps[|same|..], n - |same|)
  {
    var n := Enough(caps, min);
    if FirstSuitable(same, caps, |same|).Some? {
      HeadIsFirst(same + other, caps, n);
      FirstHeadsUsed(same, other, caps, min, n);
    } else {
      NoneOfSameUsed(same, other, caps, min, n);
    }
  }

  lemma {:induction false} InUsed(codes: seq<AreaCode>, caps: seq<int>, n: nat, k: nat)
    requires k < n <= |codes| && n <= |caps| && caps[k] > 0
    ensures codes[k] in WithCapacity(codes, caps, n)
  {
    if k < n - 1 {
      InUsed(codes, caps, n - 1, k);
    }
  }

  lemma NearestExists(group: set<Zip>) returns (d: nat)
    requires group != {}
    ensures Nearest(group, d)
  {
    var distances := set z | z in group :: z.distance as int;
    var any := Pick(group);
    assert any.distance in distances;
    d := Least(distances);
    forall z | z in group
      ensures d <= z.distance
    {
      assert z.distance in distances;
    }
  }

  /** Nearest first: an area code of the centre's state has no capacity, or is used, or no candidate was
      consulted but area codes of that state that are at most as far away. */
  lemma NearestFirst(zips: set<Zip>, center: Option<string>, same: seq<AreaCode>, other: seq<AreaCode>,
                     caps: seq<int>, min: int, z: Zip)
    requires IsRanking(zips, center, true, same) && |caps| == |same| + |other|
    requires z in zips && center == Some(z.state)
    ensures z.areaCode in same
    ensures var n := Enough(caps, min);
            exists p | 0 <= p < |same| ::
              && same[p] == z.areaCode
              && (caps[p] <= 0
                  || z.areaCode in WithCapacity(same + other, caps, n)
                  || (n <= |same| && forall q, d: nat
                        | 0 <= q < n && Nearest(Group(zips, center, true, same[q]), d) :: d <= z.distance))
  {
    var n := Enough(caps, min);
    assert z in Group(zips, center, true, z.areaCode);
    var p :| 0 <= p < |same| && same[p] == z.areaCode;
    if caps[p] > 0 && p < n {
      InUsed(same + other, caps, n, p);
    } else if caps[p] > 0 {
      var e := NearestExists(Group(zips, center, true, same[p]));
      assert e <= z.distance;
      assert forall q, d: nat | 0 <= q < n && Nearest(Group(zips, center, true, same[q]), d) :: d <= e;
    }
  }

  /** Another state is consulted only when the whole of the centre's state is not enough. */
  lemma OtherStatesLast(zips: set<Zip>, center: Option<string>, same: seq<AreaCode>, other: seq<AreaCode>,
                        caps: seq<int>, min: int)
    requires IsRanking(zips, center, true, same) && IsRanking(zips, center, false, other)
    requires |caps| == |same| + |other| && Enough(caps, min) > |same|
    ensures forall z | z in zips && center == Some(z.state) :: z.areaCode in same
    ensures forall z | z in zips && center.Some? && z.state != center.value :: z.areaCode in other
    ensures Total(caps, |same|) < min
    ensures forall k | 0 <= k < |same| && caps[k] > 0 :: same[k] in WithCapacity(same + other, caps, Enough(caps, min))
  {
    var n := Enough(caps, min);
    forall z | z in zips && center.Some?
      ensures if z.state == center.value then z.areaCode in same else z.areaCode in other
    {
      assert z in Group(zips, center, z.state == center.value, z.areaCode);
    }
    forall k | 0 <= k < |same| && caps[k] > 0
      ensures same[k] in WithCapacity(same + other, caps, n)
    {
      InUsed(same + other, caps, n, k);
    }
  }
}

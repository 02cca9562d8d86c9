/**
 Choosing the sending location for a contact (choose-sending-location-for-contact.ts): the known
 locations come from redis as `id|state`, nearest first; the contact's zip code, or the best guess
 at it, says where nearest is.
 */
module SendingLocations {
  import opened Common
  import opened Delimited

  // ---- the selection

  /** `distance` is how far it is from the contact. */
  datatype Location = Location(id: string, state: string, distance: nat)

  function Encode(l: Location): string {
    l.id + [BAR] + l.state
  }

  function EncodeAll(locations: seq<Location>): seq<string> {
    if locations == [] then [] else [Encode(locations[0])] + EncodeAll(locations[1..])
  }

  predicate StateMatches(member: string, state: Option<string>) {
    var parts := Split(member, BAR);
    |parts| > 1 && state == Some(parts[1])
  }

  function FindInState(members: seq<string>, state: Option<string>): Option<string> {
    if members == [] then None
    else if StateMatches(members[0], state) then Some(members[0])
    else FindInState(members[1..], state)
  }

  /** `state` is the contact's, None if its zip code has none. */
  function Choose(members: seq<string>, state: Option<string>): Option<string> {
    match FindInState(members, state)
    case Some(member) => Some(Split(member, BAR)[0])
    case None => if members == [] then None else Some(Split(members[0], BAR)[0])
  }

  ghost predicate NearestFirst(locations: seq<Location>) {
    forall i, j | 0 <= i < j < |locations| :: locations[i].distance <= locations[j].distance
  }

  ghost predicate Plain(locations: seq<Location>) {
    forall l | l in locations :: BAR !in l.id && BAR !in l.state
  }

  lemma EncodedParts(l: Location)
    requires BAR !in l.id && BAR !in l.state
    ensures Split(Encode(l), BAR) == [l.id, l.state]
  {
    SplitFirst(l.id, l.state, BAR);
    SplitWhole(l.state, BAR);
  }

  /** The first location in the state, if there is one. */
  lemma {:induction false} FindsFirstInState(locations: seq<Location>, state: Option<string>) returns (k: nat)
    requires Plain(locations)
    ensures k <= |locations| && forall j | 0 <= j < k :: Some(locations[j].state) != state
    ensures k < |locations| ==> Some(locations[k].state) == state
    ensures FindInState(EncodeAll(locations), state) == if k < |locations| then Some(Encode(locations[k])) else None
  {
    if locations == [] {
      return 0;
    }
    EncodedParts(locations[0]);
    if Some(locations[0].state) == state {
      return 0;
    }
    k := FindsFirstInState(locations[1..], state);
    k := k + 1;
  }

  /** What redis holds for the locations: `id|state` each. */
  ghost predicate MembersOf(members: seq<string>, locations: seq<Location>) {
    |members| == |locations|
    && forall i | 0 <= i < |members| :: members[i] == locations[i].id + "|" + locations[i].state
  }

  lemma {:induction false} MembersAreEncoded(members: seq<string>, locations: seq<Location>)
    requires MembersOf(members, locations)
    ensures members == EncodeAll(locations)
  {
    if members != [] {
      MembersAreEncoded(members[1..], locations[1..]);
      assert members == [members[0]] + members[1..];
    }
  }

  /** The location chosen: the first of the own state, or the first of all if none is. */
  lemma {:induction false} ChosenIs(members: seq<string>, locations: seq<Location>, state: Option<string>)
    returns (i: nat)
    requires MembersOf(members, locations) && Plain(locations) && locations != []
    ensures i < |locations| && Choose(members, state) == Some(locations[i].id)
    ensures if Some(locations[i].state) == state then forall j | 0 <= j < i :: Some(locations[j].state) != state
            else i == 0 && forall j | 0 <= j < |locations| :: Some(locations[j].state) != state
  {
    MembersAreEncoded(members, locations);
    i := FindsFirstInState(locations, state);
    if i == |locations| {
      i := 0;
    }
    EncodedParts(locations[i]);
  }

  /** A contact is given the nearest location of its own state, else the nearest of all, and none only
      if there are none. */
  lemma {:induction false} ChoosesNearest(members: seq<string>, locations: seq<Location>, state: Option<string>)
    requires MembersOf(members, locations) && Plain(locations) && NearestFirst(locations)
    ensures var chosen := Choose(members, state);
            && (chosen.None? <==> locations == [])
            && (chosen.Some? ==>
                  exists l | l in locations ::
                    && l.id == chosen.value
                    && (if exists m :: m in locations && Some(m.state) == state
                        then Some(l.state) == state
                             && forall m | m in locations && Some(m.state) == state :: l.distance <= m.distance
                        else forall m | m in locations :: l.distance <= m.distance))
  {
    if locations != [] {
      var i := ChosenIs(members, locations, state);
      var l := locations[i];
      assert l in locations;
      forall m | m in locations && (Some(l.state) == state ==> Some(m.state) == state)
        ensures l.distance <= m.distance
      {
        var j :| 0 <= j < |locations| && locations[j] == m;
      }
    }
  }

  // ---- the guess

  function Leading(zip: string, n: nat): string {
    if |zip| <= n then zip else zip[..n]
  }

  function FindStarting(known: seq<string>, start: string): Option<string> {
    if known == [] then None
    else if start <= known[0] then Some(known[0])
    else FindStarting(known[1..], start)
  }

  const OMAHA := "68102"

  function BestGuess(known: seq<string>, zip: string): string {
    if zip in known then zip else
      var three := FindStarting(known, Leading(zip, 3));
      if three.Some? then three.value else
        var two := FindStarting(known, Leading(zip, 2));
        if two.Some? then two.value else
          var one := FindStarting(known, Leading(zip, 1));
          if one.Some? then one.value else OMAHA
  }

  lemma {:induction false} FindsStarting(known: seq<string>, start: string) returns (k: nat)
    ensures k <= |known| && forall j | 0 <= j < k :: !(start <= known[j])
    ensures k < |known| ==> start <= known[k]
    ensures FindStarting(known, start) == if k < |known| then Some(known[k]) else None
  {
    if known == [] || start <= known[0] {
      return 0;
    }
    k := FindsStarting(known[1..], start);
    k := k + 1;
  }

  /** The first n digits of the zip code, or all of it. */
  predicate Shares(known: string, zip: string, n: nat) {
    (if n <= |zip| then zip[..n] else zip) <= known
  }

  /** No known zip code shares the first n digits. */
  ghost predicate NoneShares(known: seq<string>, zip: string, n: nat) {
    forall z | z in known :: !Shares(z, zip, n)
  }

  /** The k-th known zip code is the first that shares the first n digits. */
  ghost predicate FirstSharing(known: seq<string>, zip: string, n: nat, k: nat) {
    k < |known| && Shares(known[k], zip, n) && forall j | 0 <= j < k :: !Shares(known[j], zip, n)
  }

  lemma SharedByFirst(known: seq<string>, zip: string, n: nat)
    ensures match FindStarting(known, Leading(zip, n))
            case Some(z) => z in known && exists k: nat :: FirstSharing(known, zip, n, k) && z == known[k]
            case None => NoneShares(known, zip, n)
  {
    var k := FindsStarting(known, Leading(zip, n));
    assert k < |known| ==> FirstSharing(known, zip, n, k);
  }

  /** The guess is the zip code if it is known; else the first known one that shares its first three digits,
      the first two if none shares three, or the first one; and Omaha's if none shares even that. */
  lemma GuessIsClosest(known: seq<string>, zip: string)
    ensures var guess := BestGuess(known, zip);
            if zip in known then guess == zip
            else if NoneShares(known, zip, 3) && NoneShares(known, zip, 2) && NoneShares(known, zip, 1)
            then guess == "68102"
            else
              var n := if !NoneShares(known, zip, 3) then 3 else if !NoneShares(known, zip, 2) then 2 else 1;
              exists k: nat :: FirstSharing(known, zip, n, k) && guess == known[k]
  {
    SharedByFirst(known, zip, 3);
    SharedByFirst(known, zip, 2);
    SharedByFirst(known, zip, 1);
  }
}

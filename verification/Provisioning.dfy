/**
 createSendingLocation (ProvisionSendingLocations.ts): a new sending location of a 10DLC profile
 also opens one phone number request, all or nothing and under a cap per profile.
 */
module Provisioning {
  import opened Common
  import opened Session

  datatype Channel = GreyRoute | TollFree | TenDlc

  datatype Location = Location(profile: int, areaCodes: seq<string>)

  datatype NumberRequest = NumberRequest(location: int, areaCode: string)

  datatype Tables = Tables(profiles: map<int, Channel>, locations: map<int, Location>,
                           requests: map<int, NumberRequest>)

  /** A profile may have this many requests before the next one is refused. */
  const REQUEST_CAP := 49

  /** The mutation's input, the ids the database will give, and whether either insert fails for a
      reason of its own. */
  datatype Mutation = Mutation(location: int, row: Location, request: int, resolverFails: bool, insertFails: bool)

  function RequestsOf(d: Tables, profile: int): set<int> {
    set r | r in d.requests && d.requests[r].location in d.locations
            && d.locations[d.requests[r].location].profile == profile
  }

  /** Foreign keys: every request belongs to a location. */
  predicate Referenced(d: Tables) {
    forall r | r in d.requests :: d.requests[r].location in d.locations
  }

  // ---- the statements

  function AddLocation(m: Mutation): Effect<Tables> {
    (d: Tables, role: string) =>
      if m.resolverFails || m.location in d.locations then None
      else Some(d.(locations := d.locations[m.location := m.row]))
  }

  /** The where clause of the insert; its row count is 1 exactly when this holds. */
  predicate MayRequest(d: Tables, m: Mutation) {
    m.location in d.locations && d.locations[m.location].areaCodes != [] && |RequestsOf(d, m.row.profile)| < REQUEST_CAP
  }

  /** Only the postgres role may insert requests. */
  function AddRequest(m: Mutation): Effect<Tables> {
    (d: Tables, role: string) =>
      if m.insertFails || role != "postgres" || m.request in d.requests || m.row.areaCodes == [] then None
      else Some(d.(requests := d.requests[m.request := NumberRequest(m.location, m.row.areaCodes[0])]))
  }

  function HasChannel(profile: int, channel: Channel): Tables -> bool {
    (d: Tables) => profile in d.profiles && d.profiles[profile] == channel
  }

  function RequestNumber(m: Mutation): Prog<Tables> {
    WithRole("postgres", If((d: Tables) => MayRequest(d, m), Statement(AddRequest(m)), Throw))
  }

  function ForChannel(m: Mutation): Prog<Tables> {
    If(HasChannel(m.row.profile, GreyRoute), Skip,
       If(HasChannel(m.row.profile, TollFree), Throw,
          If(HasChannel(m.row.profile, TenDlc), RequestNumber(m), Throw)))
  }

  function CreateSendingLocation(m: Mutation): Prog<Tables> {
    WithSavepoint("provision_sending_location", Then(Statement(AddLocation(m)), ForChannel(m)))
  }

  // ---- when it succeeds

  predicate LocationGoesIn(d: Tables, m: Mutation) {
    !m.resolverFails && m.location !in d.locations
  }

  predicate RequestGoesIn(d: Tables, m: Mutation, permitted: set<string>) {
    && "postgres" in permitted && m.row.areaCodes != [] && !m.insertFails && m.request !in d.requests
    && |set r | r in d.requests && d.requests[r].location in d.locations
                && d.locations[d.requests[r].location].profile == m.row.profile| < 49
  }

  function WithLocation(d: Tables, m: Mutation): Tables {
    d.(locations := d.locations[m.location := m.row])
  }

  function WithBoth(d: Tables, m: Mutation): Tables
    requires m.row.areaCodes != []
  {
    WithLocation(d, m).(requests := d.requests[m.request := NumberRequest(m.location, m.row.areaCodes[0])])
  }

  lemma NewLocationHasNoRequests(d: Tables, m: Mutation, profile: int)
    requires Referenced(d) && m.location !in d.locations
    ensures RequestsOf(WithLocation(d, m), profile) == RequestsOf(d, profile)
  {
    var d' := WithLocation(d, m);
    forall r | r in d.requests
      ensures r in RequestsOf(d', profile) <==> r in RequestsOf(d, profile)
    {
      assert d.requests[r].location in d.locations;
    }
  }

  lemma RequestNumberOutcome(m: Mutation, t: Tx<Tables>)
    requires !t.aborted && t.role in t.permitted
    requires m.location in t.data.locations && t.data.locations[m.location] == m.row
    ensures var (t', out) := Exec(RequestNumber(m), t);
            out == Done <==> RequestGoesIn(t.data, m, t.permitted)
    ensures var (t', out) := Exec(RequestNumber(m), t);
            out == Done ==> t' == t.(data := t.data.(requests :=
              t.data.requests[m.request := NumberRequest(m.location, m.row.areaCodes[0])]))
  {
    var becomes := SetRole(t, "postgres").0;
    var body := If((d: Tables) => MayRequest(d, m), Statement(AddRequest(m)), Throw);
    if "postgres" in t.permitted {
      var (added, done) := Query(becomes, AddRequest(m));
      assert Exec(Statement(AddRequest(m)), becomes) == (added, AsOutcome(done));
      assert Exec(body, becomes)
          == if MayRequest(t.data, m) then Exec(Statement(AddRequest(m)), becomes) else (becomes, Thrown);
    }
  }

  /** When and how the mutation's inner work succeeds. */
  predicate Succeeds(d: Tables, m: Mutation, permitted: set<string>) {
    LocationGoesIn(d, m) && m.row.profile in d.profiles
    && match d.profiles[m.row.profile]
       case GreyRoute => true
       case TollFree => false
       case TenDlc => RequestGoesIn(d, m, permitted)
  }

  lemma ForChannelOutcome(m: Mutation, d: Tables, t: Tx<Tables>)
    requires !t.aborted && t.role in t.permitted
    requires Referenced(d) && LocationGoesIn(d, m) && t.data == WithLocation(d, m)
    ensures var (t', out) := Exec(ForChannel(m), t);
            (out == Done <==> Succeeds(d, m, t.permitted))
            && (out == Done ==>
                  t' == t.(data := if d.profiles[m.row.profile] == GreyRoute then t.data else WithBoth(d, m)))
  {
    NewLocationHasNoRequests(d, m, m.row.profile);
    RequestNumberOutcome(m, t);
    var tenDlc := If(HasChannel(m.row.profile, TenDlc), RequestNumber(m), Throw);
    var tollFree := If(HasChannel(m.row.profile, TollFree), Throw, tenDlc);
    assert Exec(Throw, t) == (t, Thrown) && Exec(Skip, t) == (t, Done);
    assert Exec(tenDlc, t)
        == if HasChannel(m.row.profile, TenDlc)(t.data) then Exec(RequestNumber(m), t) else (t, Thrown);
    assert Exec(tollFree, t) == if HasChannel(m.row.profile, TollFree)(t.data) then (t, Thrown) else Exec(tenDlc, t);
  }

  lemma CreateIsStraight(m: Mutation)
    ensures Straight(Then(Statement(AddLocation(m)), ForChannel(m)))
  {
    assert Straight(If((d: Tables) => MayRequest(d, m), Statement(AddRequest(m)), Throw));
    assert Straight(RequestNumber(m));
    assert Straight(If(HasChannel(m.row.profile, TenDlc), RequestNumber(m), Throw));
  }

  lemma BodyOutcome(m: Mutation, t: Tx<Tables>)
    requires !t.aborted && t.role in t.permitted && Referenced(t.data)
    ensures var (t', out) := Exec(Then(Statement(AddLocation(m)), ForChannel(m)), t);
            (out == Done <==> Succeeds(t.data, m, t.permitted))
            && (out == Done ==> t' == t.(data := if t.data.profiles[m.row.profile] == GreyRoute
                                                 then WithLocation(t.data, m) else WithBoth(t.data, m)))
  {
    var (t1, ok) := Query(t, AddLocation(m));
    assert Exec(Statement(AddLocation(m)), t) == (t1, AsOutcome(ok));
    if ok {
      ForChannelOutcome(m, t.data, t1);
    }
  }

  /** Provisioning is all or nothing. It succeeds exactly when it may; then a 10DLC profile gains one
      location and one request for the location's first area code, a grey-route profile the location
      alone; and in every other case, an inner error included, nothing at all has changed. Role,
      savepoints and transaction state are always those of the start. */
  lemma ProvisioningIsAtomic(m: Mutation, t: Tx<Tables>)
    requires !t.aborted && t.role in t.permitted && Referenced(t.data)
    ensures var (t', out) := Exec(CreateSendingLocation(m), t);
            && (out == Done <==> Succeeds(t.data, m, t.permitted))
            && (out == Thrown ==> t' == t)
            && (out == Done ==> t' == t.(data := if t.data.profiles[m.row.profile] == GreyRoute
                                                 then WithLocation(t.data, m) else WithBoth(t.data, m)))
  {
    var body := Then(Statement(AddLocation(m)), ForChannel(m));
    var t1 := SetSavepoint(t, "provision_sending_location").0;
    CreateIsStraight(m);
    BodyOutcome(m, t1);
    SavepointIsAtomic("provision_sending_location", body, t);
  }

  predicate IsRequestOf(d: Tables, r: int, profile: int) {
    r in d.requests && d.requests[r].location in d.locations
    && d.locations[d.requests[r].location].profile == profile
  }

  /** The two tables differ in nothing but requests of other profiles. */
  ghost predicate SameForProfile(d: Tables, e: Tables, profile: int) {
    && e.profiles == d.profiles && e.locations == d.locations
    && forall r :: IsRequestOf(d, r, profile) <==> IsRequestOf(e, r, profile)
  }

  lemma SameRequests(d: Tables, e: Tables, profile: int)
    requires SameForProfile(d, e, profile)
    ensures RequestsOf(d, profile) == RequestsOf(e, profile)
  {
    forall r
      ensures r in RequestsOf(d, profile) <==> r in RequestsOf(e, profile)
    {
      assert r in RequestsOf(d, profile) <==> IsRequestOf(d, r, profile);
      assert r in RequestsOf(e, profile) <==> IsRequestOf(e, r, profile);
    }
  }

  /** Only the profile's own requests count: however many others have, a mutation that succeeds in one
      state succeeds in the other. */
  lemma OthersDoNotCount(m: Mutation, t: Tx<Tables>, u: Tx<Tables>)
    requires !t.aborted && t.role in t.permitted && Referenced(t.data)
    requires !u.aborted && u.role in u.permitted && Referenced(u.data) && u.permitted == t.permitted
    requires SameForProfile(t.data, u.data, m.row.profile)
    requires m.request in t.data.requests <==> m.request in u.data.requests
    ensures Exec(CreateSendingLocation(m), t).1 == Exec(CreateSendingLocation(m), u).1
  {
    ProvisioningIsAtomic(m, t);
    ProvisioningIsAtomic(m, u);
    SameRequests(t.data, u.data, m.row.profile);
    assert Succeeds(t.data, m, t.permitted) == Succeeds(u.data, m, t.permitted);
  }

  /** No mutation lifts any profile's request count above the cap. */
  lemma CapHolds(m: Mutation, t: Tx<Tables>, profile: int)
    requires !t.aborted && t.role in t.permitted && Referenced(t.data)
    ensures var d' := Exec(CreateSendingLocation(m), t).0.data;
            Referenced(d')
            && (|RequestsOf(d', profile)| == |RequestsOf(t.data, profile)|
                || |RequestsOf(d', profile)| == |RequestsOf(t.data, profile)| + 1 <= 49)
  {
    ProvisioningIsAtomic(m, t);
    var d, d' := t.data, Exec(CreateSendingLocation(m), t).0.data;
    if Succeeds(d, m, t.permitted) {
      NewLocationHasNoRequests(d, m, profile);
      if d.profiles[m.row.profile] == TenDlc && profile == m.row.profile {
        assert RequestsOf(d', profile) == RequestsOf(d, profile) + {m.request};
      } else {
        assert RequestsOf(d', profile) == RequestsOf(d, profile);
      }
    }
  }

  // ---- over whole runs

  /** Mutations one after the other, each in its own transaction. */
  function Provisioned(c: Connection<Tables>, mutations: seq<Mutation>): Connection<Tables> {
    if mutations == [] then c
    else WithinTransaction(Provisioned(c, mutations[..|mutations| - 1]),
                           CreateSendingLocation(mutations[|mutations| - 1])).0
  }

  /** No location has two requests. */
  ghost predicate OnePerLocation(d: Tables) {
    forall a, b | a in d.requests && b in d.requests && a != b :: d.requests[a].location != d.requests[b].location
  }

  ghost predicate Provisionable(c: Connection<Tables>, profile: int) {
    && c.role in c.permitted && Referenced(c.committed) && OnePerLocation(c.committed)
    && |RequestsOf(c.committed, profile)| <= REQUEST_CAP
  }

  lemma OneMutation(c: Connection<Tables>, m: Mutation, profile: int)
    requires Provisionable(c, profile)
    ensures var c' := WithinTransaction(c, CreateSendingLocation(m)).0;
            Provisionable(c', profile) && c'.role == c.role && c'.permitted == c.permitted
  {
    ProvisioningIsAtomic(m, Begin(c));
    CapHolds(m, Begin(c), profile);
  }

  /** Whatever mutations arrive, and however they fail, no profile gets past the cap, no location gets
      a second request, and the connection comes back in the role it was lent out with. */
  lemma {:induction false} CapOverRuns(c: Connection<Tables>, mutations: seq<Mutation>, profile: int)
    requires Provisionable(c, profile)
    ensures var c' := Provisioned(c, mutations);
            Provisionable(c', profile) && c'.role == c.role && c'.permitted == c.permitted
  {
    if mutations != [] {
      var prefix := mutations[..|mutations| - 1];
      CapOverRuns(c, prefix, profile);
      OneMutation(Provisioned(c, prefix), mutations[|mutations| - 1], profile);
    }
  }

  // ---- the resolver, statement by statement

  method RequestNumberAs(client: Client<Tables>, m: Mutation) returns (out: Outcome)
    modifies client
    ensures (client.Model(), out) == Exec(RequestNumber(m), old(client.Model()))
  {
    ghost var start := client.Model();
    ghost var body := If((d: Tables) => MayRequest(d, m), Statement(AddRequest(m)), Throw);
    var originalRole := client.role;
    var ok := client.RunSetRole("postgres");
    if !ok {
      return Thrown;
    }
    ghost var t1 := client.Model();
    assert Exec(Statement(AddRequest(m)), t1) == (Query(t1, AddRequest(m)).0, AsOutcome(Query(t1, AddRequest(m)).1));
    if MayRequest(client.data, m) {
      ok := client.RunQuery(AddRequest(m));
      out := AsOutcome(ok);
    } else {
      out := Thrown;
    }
    assert (client.Model(), out) == Exec(body, t1);
    ok := client.RunSetRole(originalRole);
    if !ok {
      out := Thrown;
    }
  }

  method Resolve(client: Client<Tables>, m: Mutation) returns (out: Outcome)
    modifies client
    ensures (client.Model(), out) == Exec(CreateSendingLocation(m), old(client.Model()))
  {
    var ok := client.RunSavepoint("provision_sending_location");
    if !ok {
      return Thrown;
    }
    ghost var t1 := client.Model();
    out := ResolveInside(client, m);
    if out == Thrown {
      ok := client.RunRollbackTo("provision_sending_location");
    }
    ok := client.RunRelease("provision_sending_location");
    if !ok {
      out := Thrown;
    }
  }

  method ResolveInside(client: Client<Tables>, m: Mutation) returns (out: Outcome)
    modifies client
    ensures (client.Model(), out) == Exec(Then(Statement(AddLocation(m)), ForChannel(m)), old(client.Model()))
  {
    ghost var start := client.Model();
    var ok := client.RunQuery(AddLocation(m));
    assert Exec(Statement(AddLocation(m)), start) == (client.Model(), AsOutcome(ok));
    if !ok {
      return Thrown;
    }
    out := ResolveChannel(client, m);
  }

  method ResolveChannel(client: Client<Tables>, m: Mutation) returns (out: Outcome)
    requires !client.aborted
    modifies client
    ensures (client.Model(), out) == Exec(ForChannel(m), old(client.Model()))
  {
    ghost var t := client.Model();
    ghost var tenDlc := If(HasChannel(m.row.profile, TenDlc), RequestNumber(m), Throw);
    assert Exec(Throw, t) == (t, Thrown) && Exec(Skip, t) == (t, Done);
    assert Exec(tenDlc, t)
        == if HasChannel(m.row.profile, TenDlc)(t.data) then Exec(RequestNumber(m), t) else (t, Thrown);
    if m.row.profile !in client.data.profiles {
      return Thrown;
    }
    match client.data.profiles[m.row.profile]
    case GreyRoute => return Done;
    case TollFree => return Thrown;
    case TenDlc => out := RequestNumberAs(client, m);
  }
}

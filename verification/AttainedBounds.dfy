/**
 The bounds on load are reached: runs that crowd one request as far as limit and concurrency allow.
 Runs are put together from a few moves, each some events long, on states of a simple shape.
 */
module AttainedBounds {
  import opened Common
  import opened Sets
  import opened ReleaseSchedule
  import opened PendingIndex
  import opened Allocator
  import opened AllocatorInvariants
  import opened IndexRefinement
  import opened AllocatorBounds
  import opened OfferedBounds
  import opened LoadExcess

  /** The request that is crowded, at its location. */
  const CROWDED := Member(5, 7)

  /** Its rows and its score, None if it has left the sorted set; the messages that chose it, that opened
      it, and that are not counted yet; and whether it is fulfilled, and was met so. */
  datatype Shape = Shape(rows: nat, score: Option<int>, choosers: nat, openers: nat, uncounted: nat,
                         fulfilled: bool, met: bool)

  function Flight(shape: Shape): nat {
    shape.choosers + shape.openers + shape.uncounted
  }

  function ScoresOf(shape: Shape): map<Member, int> {
    if shape.score.Some? then map[CROWDED := shape.score.value] else map[]
  }

  function IndexOf(shape: Shape): Index {
    Index(ScoresOf(shape), if shape.met then {CROWDED} else {})
  }

  /** Every job waits, runs, or is bound for the crowded request, so many by choice and so many by opening. */
  ghost predicate Queues(jobs: map<int, Job>, choosers: nat, openers: nat) {
    && (forall m | m in jobs :: jobs[m].phase in {Waiting, Running, Chosen(CROWDED), Opened(CROWDED)})
    && |ChosenFor(jobs, CROWDED)| == choosers && |OpenedFor(jobs, CROWDED)| == openers
  }

  ghost predicate Parks(awaiting: map<int, Awaiting>, rows: nat) {
    (forall m | m in awaiting :: awaiting[m].member == CROWDED) && |awaiting.Keys| == rows
  }

  ghost predicate Increments(unapplied: map<int, Member>, uncounted: nat) {
    (forall m | m in unapplied :: unapplied[m] == CROWDED) && |unapplied.Keys| == uncounted
  }

  ghost predicate Below(submitted: set<int>, next: int) {
    forall m | m in submitted :: m < next
  }

  /** Nothing but the one request is there; ids from `next` on are free. */
  ghost predicate Crowd(s: State, shape: Shape, next: int) {
    && s.hydrated && s.adding == {}
    && s.requests == map[CROWDED.request := Request(CROWDED.at, shape.fulfilled)]
    && s.index == IndexOf(shape)
    && Queues(s.jobs, shape.choosers, shape.openers)
    && Increments(s.unapplied, shape.uncounted)
    && Parks(s.awaiting, shape.rows)
    && Below(s.submitted, next)
  }

  lemma CrowdInFlight(s: State, shape: Shape, next: int)
    requires Crowd(s, shape, next)
    ensures InFlight(s) <= Flight(shape)
  {
    var chosen, openers := ChosenFor(s.jobs, CROWDED), OpenedFor(s.jobs, CROWDED);
    forall m | m in Decided(s.jobs)
      ensures m in chosen + openers
    {
      assert s.jobs[m].phase == Chosen(CROWDED) || s.jobs[m].phase == Opened(CROWDED);
    }
    SubsetSize(Decided(s.jobs), chosen + openers);
    assert |chosen + openers| <= |chosen| + |openers|;
    assert |Tickets(s)| <= |Decided(s.jobs)| + |s.unapplied.Keys|;
    assert Orphans(s) == {};
  }

  lemma CrowdCounts(s: State, shape: Shape, next: int)
    requires Crowd(s, shape, next)
    ensures CROWDED.request in s.requests && MemberOf(s, CROWDED.request) == CROWDED
    ensures |RowsOf(s.awaiting, CROWDED)| == shape.rows && |Uncounted(s.unapplied, CROWDED)| == shape.uncounted
  {
    assert forall m | m in s.awaiting :: s.awaiting[m].member == CROWDED;
    assert forall m | m in s.unapplied :: s.unapplied[m] == CROWDED;
    assert RowsOf(s.awaiting, CROWDED) == s.awaiting.Keys;
    assert Uncounted(s.unapplied, CROWDED) == s.unapplied.Keys;
  }

  // ---- moves

  datatype Move = ToChoose | ToInsert | ToCount | ToMeet | ToRehydrate

  predicate Allowed(cfg: Config, w: nat, shape: Shape, move: Move) {
    match move
    case ToChoose => Flight(shape) < w && shape.score.Some? && shape.score.value <= cfg.limit
    case ToInsert => shape.openers + shape.choosers > 0 && (shape.choosers > 0 ==> !shape.fulfilled)
    case ToCount => shape.uncounted > 0 && shape.score.Some?
    case ToMeet => !shape.fulfilled && shape.choosers > 0
    case ToRehydrate => shape.uncounted == 0 && shape.rows > 0
  }

  function InsertedChosen(shape: Shape): Shape
    requires shape.choosers > 0
  {
    shape.(rows := shape.rows + 1, choosers := shape.choosers - 1, uncounted := shape.uncounted + 1)
  }

  function InsertedOpener(shape: Shape): Shape
    requires shape.openers > 0
  {
    shape.(rows := shape.rows + 1, openers := shape.openers - 1, uncounted := shape.uncounted + 1)
  }

  /** An increment is none once the request is met fulfilled. */
  function Counted(shape: Shape): Shape
    requires shape.uncounted > 0 && shape.score.Some?
  {
    shape.(score := Some(shape.score.value + One(!shape.met)), uncounted := shape.uncounted - 1)
  }

  function Moved(cfg: Config, w: nat, shape: Shape, move: Move): Shape
    requires Allowed(cfg, w, shape, move)
  {
    match move
    case ToChoose => shape.(choosers := shape.choosers + 1)
    case ToInsert => if shape.choosers > 0 then InsertedChosen(shape) else InsertedOpener(shape)
    case ToCount => Counted(shape)
    case ToMeet => shape.(choosers := shape.choosers - 1, score := None, fulfilled := true, met := true)
    case ToRehydrate => shape.(score := Some(shape.rows))
  }

  // ---- moves, on the parts of a state

  lemma QueueIdles(jobs: map<int, Job>, choosers: nat, openers: nat, m: int, job: Job)
    requires Queues(jobs, choosers, openers) && (m in jobs ==> jobs[m].phase == Waiting)
    requires job.phase == Waiting || job.phase == Running
    ensures Queues(jobs[m := job], choosers, openers)
  {
    assert ChosenFor(jobs[m := job], CROWDED) == ChosenFor(jobs, CROWDED);
    assert OpenedFor(jobs[m := job], CROWDED) == OpenedFor(jobs, CROWDED);
  }

  lemma QueueJoins(jobs: map<int, Job>, choosers: nat, openers: nat, m: int, job: Job)
    requires Queues(jobs, choosers, openers) && m in jobs && jobs[m].phase == Running && job.phase == Chosen(CROWDED)
    ensures Queues(jobs[m := job], choosers + 1, openers)
  {
    assert ChosenFor(jobs[m := job], CROWDED) == ChosenFor(jobs, CROWDED) + {m};
    assert OpenedFor(jobs[m := job], CROWDED) == OpenedFor(jobs, CROWDED);
  }

  lemma QueueQuits(jobs: map<int, Job>, choosers: nat, openers: nat, m: int, job: Job)
    requires Queues(jobs, choosers, openers) && m in ChosenFor(jobs, CROWDED) && job.phase == Waiting && choosers > 0
    ensures Queues(jobs[m := job], choosers - 1, openers)
  {
    assert ChosenFor(jobs[m := job], CROWDED) == ChosenFor(jobs, CROWDED) - {m};
    assert OpenedFor(jobs[m := job], CROWDED) == OpenedFor(jobs, CROWDED);
  }

  lemma QueueLeaves(jobs: map<int, Job>, choosers: nat, openers: nat, m: int)
    requires Queues(jobs, choosers, openers) && m in jobs
    ensures Queues(jobs - {m}, choosers - One(m in ChosenFor(jobs, CROWDED)),
                   openers - One(m in OpenedFor(jobs, CROWDED)))
  {
    JobLeaves(jobs, m, CROWDED);
  }

  lemma QueueFails(cfg: Config, jobs: map<int, Job>, choosers: nat, openers: nat, m: int)
    requires Queues(jobs, choosers, openers) && m in ChosenFor(jobs, CROWDED) && choosers > 0
    ensures Queues(QueueAfter(cfg, jobs, m), choosers - 1, openers)
  {
    if OutOfAttempts(cfg, jobs[m]) {
      QueueLeaves(jobs, choosers, openers, m);
    } else {
      QueueQuits(jobs, choosers, openers, m, Failed(jobs[m]));
    }
  }

  lemma ParksOneMore(awaiting: map<int, Awaiting>, rows: nat, m: int, row: Awaiting)
    requires Parks(awaiting, rows) && m !in awaiting && row.member == CROWDED
    ensures Parks(awaiting[m := row], rows + 1)
  {
    assert awaiting[m := row].Keys == awaiting.Keys + {m};
  }

  lemma OneMoreIncrement(unapplied: map<int, Member>, uncounted: nat, m: int)
    requires Increments(unapplied, uncounted) && m !in unapplied
    ensures Increments(unapplied[m := CROWDED], uncounted + 1)
  {
    assert unapplied[m := CROWDED].Keys == unapplied.Keys + {m};
  }

  lemma SomeIncrement(unapplied: map<int, Member>, uncounted: nat) returns (m: int)
    requires Increments(unapplied, uncounted) && uncounted > 0
    ensures m in unapplied
  {
    m := Pick(unapplied.Keys);
  }

  lemma OneLessIncrement(unapplied: map<int, Member>, uncounted: nat, m: int)
    requires Increments(unapplied, uncounted) && m in unapplied && uncounted > 0
    ensures Increments(unapplied - {m}, uncounted - 1)
  {
    assert (unapplied - {m}).Keys == unapplied.Keys - {m};
  }

  lemma CountScores(shape: Shape)
    requires shape.uncounted > 0 && shape.score.Some?
    ensures CountMessage(IndexOf(shape), CROWDED) == IndexOf(Counted(shape))
  {
    if !shape.met {
      assert ScoresOf(shape)[CROWDED := shape.score.value + 1] == map[CROWDED := shape.score.value + 1];
    }
  }

  lemma MeetIndex(shape: Shape)
    ensures MarkFulfilled(IndexOf(shape), CROWDED) == IndexOf(shape.(score := None, met := true))
  {
    assert ScoresOf(shape) - {CROWDED} == map[];
  }

  // ---- moves, on states

  lemma SubmitMove(cfg: Config, s: State, shape: Shape, next: int)
    requires Conserved(s) && Crowd(s, shape, next)
    ensures var s' := Step(cfg, s, Submit(next, Payload(1, 0)));
            Crowd(s', shape, next + 1) && InPhase(s', next, Waiting)
  {
    assert PlacedOnce(s, next);
    QueueIdles(s.jobs, shape.choosers, shape.openers, next, Job(Payload(1, 0), 0, Waiting));
  }

  lemma BeginMove(cfg: Config, s: State, shape: Shape, next: int, m: int)
    requires Crowd(s, shape, next) && InPhase(s, m, Waiting)
    ensures var s' := Step(cfg, s, Begin(m)); Crowd(s', shape, next) && InPhase(s', m, Running)
  {
    QueueIdles(s.jobs, shape.choosers, shape.openers, m, Job(s.jobs[m].payload, s.jobs[m].attempts + 1, Running));
  }

  lemma LookupFinds(cfg: Config, s: State, shape: Shape, next: int, m: int)
    requires Sound(s) && Crowd(s, shape, next) && InPhase(s, m, Running)
    requires shape.score.Some? && shape.score.value <= cfg.limit
    ensures Step(cfg, s, Lookup(m, CROWDED.at)) == SetPhase(s, m, Chosen(CROWDED))
  {
    assert CROWDED in s.index.scores;
    assert Offered(s.index.scores, CROWDED.at, cfg.limit) == {CROWDED};
    LeastLoadedIsUnique(s.index.scores, CROWDED.at, cfg.limit, CROWDED);
  }

  lemma LookupMove(cfg: Config, s: State, shape: Shape, next: int, m: int)
    requires Sound(s) && Crowd(s, shape, next) && InPhase(s, m, Running)
    requires shape.score.Some? && shape.score.value <= cfg.limit
    ensures Crowd(Step(cfg, s, Lookup(m, CROWDED.at)), shape.(choosers := shape.choosers + 1), next)
  {
    LookupFinds(cfg, s, shape, next, m);
    QueueJoins(s.jobs, shape.choosers, shape.openers, m, s.jobs[m].(phase := Chosen(CROWDED)));
  }

  /** The row is inserted, whether its message chose the request or opened it. */
  lemma InsertMove(s: State, shape: Shape, next: int, m: int, stage: DecisionStage)
    requires Conserved(s) && Crowd(s, shape, next) && m in s.jobs
    ensures var choosers, openers := shape.choosers - One(m in ChosenFor(s.jobs, CROWDED)),
                                     shape.openers - One(m in OpenedFor(s.jobs, CROWDED));
            choosers >= 0 && openers >= 0
            && Crowd(InsertAwaiting(s, m, CROWDED, stage),
                     shape.(rows := shape.rows + 1, choosers := choosers, openers := openers,
                            uncounted := shape.uncounted + 1), next)
  {
    assert PlacedOnce(s, m);
    QueueLeaves(s.jobs, shape.choosers, shape.openers, m);
    ParksOneMore(s.awaiting, shape.rows, m, Awaiting(CROWDED, s.jobs[m].payload, stage));
    OneMoreIncrement(s.unapplied, shape.uncounted, m);
  }

  lemma ChooserInserts(cfg: Config, s: State, shape: Shape, next: int, m: int)
    requires Conserved(s) && Crowd(s, shape, next) && m in ChosenFor(s.jobs, CROWDED) && !shape.fulfilled
    requires shape.choosers > 0
    ensures Crowd(Step(cfg, s, CheckAndInsert(m)), InsertedChosen(shape), next)
  {
    InsertMove(s, shape, next, m, ExistingPendingRequest);
    assert Step(cfg, s, CheckAndInsert(m)) == InsertAwaiting(s, m, CROWDED, ExistingPendingRequest);
  }

  lemma OpenerInserts(cfg: Config, s: State, shape: Shape, next: int, m: int)
    requires Conserved(s) && Crowd(s, shape, next) && m in OpenedFor(s.jobs, CROWDED) && shape.openers > 0
    ensures Crowd(Step(cfg, s, InsertOpened(m)), InsertedOpener(shape), next)
  {
    InsertMove(s, shape, next, m, NewPendingRequest);
    assert Step(cfg, s, InsertOpened(m)) == InsertAwaiting(s, m, CROWDED, NewPendingRequest);
  }

  lemma CountMove(cfg: Config, s: State, shape: Shape, next: int, m: int)
    requires Crowd(s, shape, next) && m in s.unapplied && shape.uncounted > 0 && shape.score.Some?
    ensures Crowd(Step(cfg, s, ApplyCount(m)), Counted(shape), next)
  {
    CountScores(shape);
    OneLessIncrement(s.unapplied, shape.uncounted, m);
    assert s.unapplied[m] == CROWDED;
  }

  lemma FulfilMove(cfg: Config, s: State, shape: Shape, next: int)
    requires Crowd(s, shape, next) && !shape.fulfilled
    ensures Crowd(Step(cfg, s, Fulfil(CROWDED.request)), shape.(fulfilled := true), next)
  {
  }

  lemma MeetMove(cfg: Config, s: State, shape: Shape, next: int, m: int)
    requires Crowd(s, shape, next) && m in ChosenFor(s.jobs, CROWDED) && shape.fulfilled && shape.choosers > 0
    ensures Crowd(Step(cfg, s, CheckAndInsert(m)),
                  shape.(choosers := shape.choosers - 1, score := None, met := true), next)
  {
    MeetIndex(shape);
    QueueFails(cfg, s.jobs, shape.choosers, shape.openers, m);
    assert Step(cfg, s, CheckAndInsert(m)) == FailJob(cfg, s.(index := MarkFulfilled(s.index, CROWDED)), m);
  }

  lemma DropMove(cfg: Config, s: State, shape: Shape, next: int)
    requires Crowd(s, shape, next)
    ensures var s' := Step(cfg, s, DropFlag); Crowd(s', shape, next) && !s'.flag
  {
  }

  lemma CrowdRecount(s: State, shape: Shape, next: int)
    requires Crowd(s, shape, next) && shape.rows > 0
    ensures Recount(s.awaiting, s.requests) == map[CROWDED := shape.rows]
  {
    CrowdCounts(s, shape, next);
    var m := Pick(s.awaiting.Keys);
    assert s.awaiting[m].member == CROWDED;
    assert Recounted(s.awaiting, s.requests) == {CROWDED};
  }

  lemma HydrateMove(cfg: Config, s: State, shape: Shape, next: int)
    requires Crowd(s, shape, next) && !s.flag && shape.uncounted == 0 && shape.rows > 0
    ensures Crowd(Step(cfg, s, Hydrate), shape.(score := Some(shape.rows)), next)
  {
    CrowdRecount(s, shape, next);
    assert s.unapplied.Keys == {} && s.unapplied == map[];
    assert Step(cfg, s, Hydrate) == Rehydrated(s);
    assert ScoresOf(shape) + map[CROWDED := shape.rows] == map[CROWDED := shape.rows];
  }

  // ---- moves, on runs

  /** A run with at most w decisions in flight that ends in the shape. */
  ghost predicate Reaches(cfg: Config, w: nat, events: seq<Event>, shape: Shape, next: int) {
    Bounded(cfg, w, events) && Crowd(After(cfg, EMPTY, events), shape, next)
  }

  lemma Longer(cfg: Config, w: nat, events: seq<Event>, e: Event)
    requires Bounded(cfg, w, events) && InFlight(Step(cfg, After(cfg, EMPTY, events), e)) <= w
    ensures Bounded(cfg, w, events + [e])
    ensures After(cfg, EMPTY, events + [e]) == Step(cfg, After(cfg, EMPTY, events), e)
  {
    var longer := events + [e];
    assert longer[..|longer| - 1] == events;
    forall i | 0 <= i <= |longer|
      ensures InFlightAt(cfg, longer, i) <= w
    {
      if i <= |events| {
        assert longer[..i] == events[..i];
        assert InFlightAt(cfg, events, i) <= w;
      } else {
        assert longer[..i] == longer;
      }
    }
  }

  /** One more event, known to lead to a shape. */
  lemma Extend(cfg: Config, w: nat, events: seq<Event>, e: Event, shape: Shape, next: int)
    requires Bounded(cfg, w, events) && Flight(shape) <= w
    requires Crowd(Step(cfg, After(cfg, EMPTY, events), e), shape, next)
    ensures Reaches(cfg, w, events + [e], shape, next)
    ensures After(cfg, EMPTY, events + [e]) == Step(cfg, After(cfg, EMPTY, events), e)
  {
    CrowdInFlight(Step(cfg, After(cfg, EMPTY, events), e), shape, next);
    Longer(cfg, w, events, e);
  }

  lemma Choose(cfg: Config, w: nat, events: seq<Event>, shape: Shape, next: int) returns (longer: seq<Event>)
    requires Reaches(cfg, w, events, shape, next) && Allowed(cfg, w, shape, ToChoose)
    ensures Reaches(cfg, w, longer, Moved(cfg, w, shape, ToChoose), next + 1)
  {
    SoundAfter(cfg, events);
    SubmitMove(cfg, After(cfg, EMPTY, events), shape, next);
    Extend(cfg, w, events, Submit(next, Payload(1, 0)), shape, next + 1);
    longer := events + [Submit(next, Payload(1, 0))];
    BeginMove(cfg, After(cfg, EMPTY, longer), shape, next + 1, next);
    Extend(cfg, w, longer, Begin(next), shape, next + 1);
    longer := longer + [Begin(next)];
    SoundAfter(cfg, longer);
    LookupMove(cfg, After(cfg, EMPTY, longer), shape, next + 1, next);
    Extend(cfg, w, longer, Lookup(next, CROWDED.at), Moved(cfg, w, shape, ToChoose), next + 1);
    longer := longer + [Lookup(next, CROWDED.at)];
  }

  lemma InsertChosen(cfg: Config, w: nat, events: seq<Event>, shape: Shape, next: int) returns (longer: seq<Event>)
    requires Reaches(cfg, w, events, shape, next) && Flight(shape) <= w && shape.choosers > 0 && !shape.fulfilled
    ensures Reaches(cfg, w, longer, InsertedChosen(shape), next)
  {
    var s := After(cfg, EMPTY, events);
    SoundAfter(cfg, events);
    var m := Pick(ChosenFor(s.jobs, CROWDED));
    ChooserInserts(cfg, s, shape, next, m);
    Extend(cfg, w, events, CheckAndInsert(m), InsertedChosen(shape), next);
    longer := events + [CheckAndInsert(m)];
  }

  lemma InsertOpener(cfg: Config, w: nat, events: seq<Event>, shape: Shape, next: int) returns (longer: seq<Event>)
    requires Reaches(cfg, w, events, shape, next) && Flight(shape) <= w && shape.openers > 0
    ensures Reaches(cfg, w, longer, InsertedOpener(shape), next)
  {
    var s := After(cfg, EMPTY, events);
    SoundAfter(cfg, events);
    var m := Pick(OpenedFor(s.jobs, CROWDED));
    OpenerInserts(cfg, s, shape, next, m);
    Extend(cfg, w, events, InsertOpened(m), InsertedOpener(shape), next);
    longer := events + [InsertOpened(m)];
  }

  lemma Insert(cfg: Config, w: nat, events: seq<Event>, shape: Shape, next: int) returns (longer: seq<Event>)
    requires Reaches(cfg, w, events, shape, next) && Flight(shape) <= w && Allowed(cfg, w, shape, ToInsert)
    ensures Reaches(cfg, w, longer, Moved(cfg, w, shape, ToInsert), next)
  {
    if shape.choosers > 0 {
      longer := InsertChosen(cfg, w, events, shape, next);
    } else {
      longer := InsertOpener(cfg, w, events, shape, next);
    }
  }

  lemma Count(cfg: Config, w: nat, events: seq<Event>, shape: Shape, next: int) returns (longer: seq<Event>)
    requires Reaches(cfg, w, events, shape, next) && Flight(shape) <= w && Allowed(cfg, w, shape, ToCount)
    ensures Reaches(cfg, w, longer, Moved(cfg, w, shape, ToCount), next)
  {
    var s := After(cfg, EMPTY, events);
    var m := SomeIncrement(s.unapplied, shape.uncounted);
    CountMove(cfg, s, shape, next, m);
    Extend(cfg, w, events, ApplyCount(m), Counted(shape), next);
    longer := events + [ApplyCount(m)];
  }

  lemma Rehydrate(cfg: Config, w: nat, events: seq<Event>, shape: Shape, next: int) returns (longer: seq<Event>)
    requires Reaches(cfg, w, events, shape, next) && Flight(shape) <= w && Allowed(cfg, w, shape, ToRehydrate)
    ensures Reaches(cfg, w, longer, Moved(cfg, w, shape, ToRehydrate), next)
  {
    DropMove(cfg, After(cfg, EMPTY, events), shape, next);
    Extend(cfg, w, events, DropFlag, shape, next);
    longer := events + [DropFlag];
    HydrateMove(cfg, After(cfg, EMPTY, longer), shape, next);
    Extend(cfg, w, longer, Hydrate, Moved(cfg, w, shape, ToRehydrate), next);
    longer := longer + [Hydrate];
  }

  /** The request is fulfilled, and a message that chose it before meets it so. */
  lemma Meet(cfg: Config, w: nat, events: seq<Event>, shape: Shape, next: int) returns (longer: seq<Event>)
    requires Reaches(cfg, w, events, shape, next) && Flight(shape) <= w && Allowed(cfg, w, shape, ToMeet)
    ensures Reaches(cfg, w, longer, Moved(cfg, w, shape, ToMeet), next)
  {
    var fulfilled := shape.(fulfilled := true);
    FulfilMove(cfg, After(cfg, EMPTY, events), shape, next);
    Extend(cfg, w, events, Fulfil(CROWDED.request), fulfilled, next);
    longer := events + [Fulfil(CROWDED.request)];
    var s := After(cfg, EMPTY, longer);
    var m := Pick(ChosenFor(s.jobs, CROWDED));
    MeetMove(cfg, s, fulfilled, next, m);
    Extend(cfg, w, longer, CheckAndInsert(m), Moved(cfg, w, shape, ToMeet), next);
    longer := longer + [CheckAndInsert(m)];
  }

  // ---- the opening

  const OPENING: seq<Event> := [
    Hydrate, Submit(1, Payload(1, 0)), Begin(1), Lookup(1, 5), OpenRequest(1, 7), ApplyAdd(CROWDED)]

  const OPENED := Shape(0, Some(0), 0, 1, 0, false, false)

  /** Only the first message is about. */
  ghost predicate Lone(s: State) {
    s.jobs.Keys <= {1} && s.unapplied == map[] && Orphans(s) == {}
  }

  lemma LoneInFlight(s: State)
    requires Lone(s)
    ensures InFlight(s) <= 1
  {
    SubsetSize(Tickets(s), {1});
  }

  lemma OpeningHydrates(cfg: Config)
    ensures Step(cfg, EMPTY, Hydrate) == EMPTY.(flag := true, hydrated := true)
  {
    assert Recounted(EMPTY.awaiting, EMPTY.requests) == {};
    assert Hydrated(EMPTY.index, EMPTY.awaiting, EMPTY.requests) == EMPTY.index;
  }

  /** The opener's state in a phase, before it has opened anything. */
  function Before(phase: Phase, attempts: nat): State {
    EMPTY.(flag := true, hydrated := true, submitted := {1}, jobs := map[1 := Job(Payload(1, 0), attempts, phase)])
  }

  lemma OpeningLooksUp(cfg: Config)
    ensures Step(cfg, Before(Running, 1), Lookup(1, 5)) == Before(NoneFound(5), 1)
  {
    assert Offered(EMPTY.index.scores, 5, cfg.limit) == {};
  }

  function AfterOpening(applied: bool): State {
    Before(Opened(CROWDED), 1).(requests := map[7 := Request(5, false)],
                                adding := if applied then {} else {CROWDED},
                                index := Index(if applied then map[CROWDED := 0] else map[], {}))
  }

  lemma OpeningOpens(cfg: Config)
    ensures Step(cfg, Before(NoneFound(5), 1), OpenRequest(1, 7)) == AfterOpening(false)
    ensures Step(cfg, AfterOpening(false), ApplyAdd(CROWDED)) == AfterOpening(true)
  {
    assert EMPTY.requests[7 := Request(5, false)] == map[7 := Request(5, false)];
    assert Before(NoneFound(5), 1).jobs[1 := Job(Payload(1, 0), 1, Opened(CROWDED))] == Before(Opened(CROWDED), 1).jobs;
  }

  lemma OpeningIsLone(phase: Phase, attempts: nat, applied: bool)
    ensures Lone(EMPTY.(flag := true, hydrated := true)) && Lone(EMPTY)
    ensures Lone(Before(phase, attempts)) && Lone(AfterOpening(applied))
  {
    assert 1 in OpenedFor(AfterOpening(applied).jobs, CROWDED);
  }

  lemma LongerLone(cfg: Config, w: nat, events: seq<Event>, e: Event, s: State)
    requires Bounded(cfg, w, events) && w > 0 && Step(cfg, After(cfg, EMPTY, events), e) == s && Lone(s)
    ensures Bounded(cfg, w, events + [e]) && After(cfg, EMPTY, events + [e]) == s
  {
    LoneInFlight(s);
    Longer(cfg, w, events, e);
  }

  lemma OpeningStarts(cfg: Config, w: nat)
    requires w > 0
    ensures Bounded(cfg, w, OPENING[..1]) && After(cfg, EMPTY, OPENING[..1]) == EMPTY.(flag := true, hydrated := true)
  {
    OpeningIsLone(Waiting, 0, false);
    OpeningHydrates(cfg);
    LoneInFlight(EMPTY);
    LongerLone(cfg, w, [], Hydrate, EMPTY.(flag := true, hydrated := true));
    assert [] + [Hydrate] == OPENING[..1];
  }

  lemma OpeningBegins(cfg: Config, w: nat)
    requires w > 0
    ensures Bounded(cfg, w, OPENING[..3]) && After(cfg, EMPTY, OPENING[..3]) == Before(Running, 1)
  {
    OpeningStarts(cfg, w);
    OpeningIsLone(Waiting, 0, false);
    OpeningIsLone(Running, 1, false);
    LongerLone(cfg, w, OPENING[..1], Submit(1, Payload(1, 0)), Before(Waiting, 0));
    assert OPENING[..1] + [Submit(1, Payload(1, 0))] == OPENING[..2];
    LongerLone(cfg, w, OPENING[..2], Begin(1), Before(Running, 1));
    assert OPENING[..2] + [Begin(1)] == OPENING[..3];
  }

  lemma OpeningEnds(cfg: Config, w: nat)
    requires w > 0
    ensures Bounded(cfg, w, OPENING) && After(cfg, EMPTY, OPENING) == AfterOpening(true)
  {
    OpeningBegins(cfg, w);
    OpeningLooksUp(cfg);
    OpeningOpens(cfg);
    OpeningIsLone(NoneFound(5), 1, false);
    OpeningIsLone(NoneFound(5), 1, true);
    LongerLone(cfg, w, OPENING[..3], Lookup(1, 5), Before(NoneFound(5), 1));
    assert OPENING[..3] + [Lookup(1, 5)] == OPENING[..4];
    LongerLone(cfg, w, OPENING[..4], OpenRequest(1, 7), AfterOpening(false));
    assert OPENING[..4] + [OpenRequest(1, 7)] == OPENING[..5];
    LongerLone(cfg, w, OPENING[..5], ApplyAdd(CROWDED), AfterOpening(true));
    assert OPENING[..5] + [ApplyAdd(CROWDED)] == OPENING;
  }

  lemma OpeningReaches(cfg: Config, w: nat)
    requires w > 0
    ensures Reaches(cfg, w, OPENING, OPENED, 2)
  {
    OpeningEnds(cfg, w);
    var s := AfterOpening(true);
    assert ChosenFor(s.jobs, CROWDED) == {} && OpenedFor(s.jobs, CROWDED) == {1};
    assert s.unapplied.Keys == {} && s.awaiting.Keys == {};
  }

  // ---- moves, one after the other

  datatype Plan = FromOpening | Then(plan: Plan, move: Move)

  /** Where the plan leads from the opening; None if a move is not allowed. */
  function Leads(cfg: Config, w: nat, plan: Plan): Option<Shape> {
    match plan
    case FromOpening => Some(OPENED)
    case Then(before, move) =>
      var shape := Leads(cfg, w, before);
      if shape.Some? && Allowed(cfg, w, shape.value, move) then Some(Moved(cfg, w, shape.value, move)) else None
  }

  lemma Next(cfg: Config, w: nat, plan: Plan, shape: Shape, move: Move, shape': Shape) returns (longer: Plan)
    requires Leads(cfg, w, plan) == Some(shape) && Allowed(cfg, w, shape, move) && Moved(cfg, w, shape, move) == shape'
    ensures Leads(cfg, w, longer) == Some(shape')
  {
    longer := Then(plan, move);
  }

  lemma {:induction false} FlightStaysBounded(cfg: Config, w: nat, plan: Plan)
    requires w > 0 && Leads(cfg, w, plan).Some?
    ensures Flight(Leads(cfg, w, plan).value) <= w
  {
    if plan.Then? {
      FlightStaysBounded(cfg, w, plan.plan);
    }
  }

  lemma MakeMove(cfg: Config, w: nat, events: seq<Event>, shape: Shape, next: int, move: Move)
    returns (longer: seq<Event>, next': int)
    requires Reaches(cfg, w, events, shape, next) && Flight(shape) <= w && Allowed(cfg, w, shape, move)
    ensures Reaches(cfg, w, longer, Moved(cfg, w, shape, move), next')
  {
    next' := if move == ToChoose then next + 1 else next;
    match move
    case ToChoose => longer := Choose(cfg, w, events, shape, next);
    case ToInsert => longer := Insert(cfg, w, events, shape, next);
    case ToCount => longer := Count(cfg, w, events, shape, next);
    case ToMeet => longer := Meet(cfg, w, events, shape, next);
    case ToRehydrate => longer := Rehydrate(cfg, w, events, shape, next);
  }

  /** Allowed moves are made by a run that keeps to w decisions in flight. */
  lemma {:induction false} PlanReaches(cfg: Config, w: nat, plan: Plan) returns (events: seq<Event>, next: int)
    requires w > 0 && Leads(cfg, w, plan).Some?
    ensures Reaches(cfg, w, events, Leads(cfg, w, plan).value, next)
  {
    match plan
    case FromOpening =>
      OpeningReaches(cfg, w);
      return OPENING, 2;
    case Then(before, move) =>
      events, next := PlanReaches(cfg, w, before);
      FlightStaysBounded(cfg, w, before);
      events, next := MakeMove(cfg, w, events, Leads(cfg, w, before).value, next, move);
  }

  // ---- limit + w rows

  lemma FillOne(cfg: Config, w: nat, plan: Plan, n: nat, opener: nat) returns (longer: Plan)
    requires 0 < n <= cfg.limit && w > 0 && opener <= 1
    requires Leads(cfg, w, plan) == Some(Shape(n - 1, Some(n - 1), 1 - opener, opener, 0, false, false))
    ensures Leads(cfg, w, longer) == Some(Shape(n, Some(n), 1, 0, 0, false, false))
  {
    var bound := Shape(n - 1, Some(n - 1), 1 - opener, opener, 0, false, false);
    var inserted := Shape(n, Some(n - 1), 0, 0, 1, false, false);
    var counted := Shape(n, Some(n), 0, 0, 0, false, false);
    longer := Next(cfg, w, plan, bound, ToInsert, inserted);
    longer := Next(cfg, w, longer, inserted, ToCount, counted);
    longer := Next(cfg, w, longer, counted, ToChoose, counted.(choosers := 1));
  }

  /** One message at a time, up to a full score: the last of them has chosen or opened, not inserted. */
  lemma {:induction false} FillTo(cfg: Config, w: nat, n: nat) returns (plan: Plan, opener: nat)
    requires w > 0 && n <= cfg.limit
    ensures opener <= 1 && Leads(cfg, w, plan) == Some(Shape(n, Some(n), 1 - opener, opener, 0, false, false))
  {
    if n == 0 {
      return FromOpening, 1;
    }
    plan, opener := FillTo(cfg, w, n - 1);
    plan := FillOne(cfg, w, plan, n, opener);
    opener := 0;
  }

  lemma {:induction false} ChooseMore(cfg: Config, w: nat, plan: Plan, shape: Shape, more: nat) returns (longer: Plan)
    requires Leads(cfg, w, plan) == Some(shape) && Flight(shape) + more <= w
    requires shape.score.Some? && shape.score.value <= cfg.limit
    ensures Leads(cfg, w, longer) == Some(shape.(choosers := shape.choosers + more))
  {
    if more == 0 {
      return plan;
    }
    longer := ChooseMore(cfg, w, plan, shape, more - 1);
    var chosen := shape.(choosers := shape.choosers + more - 1);
    longer := Next(cfg, w, longer, chosen, ToChoose, shape.(choosers := shape.choosers + more));
  }

  lemma {:induction false} InsertAll(cfg: Config, w: nat, plan: Plan, shape: Shape) returns (longer: Plan)
    requires Leads(cfg, w, plan) == Some(shape) && !shape.fulfilled
    ensures var more := shape.choosers + shape.openers;
            Leads(cfg, w, longer) == Some(shape.(rows := shape.rows + more, choosers := 0, openers := 0,
                                                 uncounted := shape.uncounted + more))
    decreases shape.choosers + shape.openers
  {
    if shape.choosers + shape.openers == 0 {
      return plan;
    }
    longer := Next(cfg, w, plan, shape, ToInsert, Moved(cfg, w, shape, ToInsert));
    longer := InsertAll(cfg, w, longer, Moved(cfg, w, shape, ToInsert));
  }

  lemma RowsRun(cfg: Config, w: nat) returns (events: seq<Event>)
    requires w > 0 && cfg.limit >= 0
    ensures Bounded(cfg, w, events)
    ensures var s := After(cfg, EMPTY, events);
            CROWDED.request in s.requests && |RowsOf(s.awaiting, MemberOf(s, CROWDED.request))| == cfg.limit + w
  {
    var plan, opener := FillTo(cfg, w, cfg.limit);
    var full := Shape(cfg.limit, Some(cfg.limit), 1 - opener, opener, 0, false, false);
    plan := ChooseMore(cfg, w, plan, full, w - 1);
    plan := InsertAll(cfg, w, plan, full.(choosers := w - opener));
    var next;
    events, next := PlanReaches(cfg, w, plan);
    CrowdCounts(After(cfg, EMPTY, events), Leads(cfg, w, plan).value, next);
  }

  /** A run with at most w decisions in flight ends with n rows behind the request. */
  ghost predicate HoldsRows(cfg: Config, w: nat, events: seq<Event>, r: int, n: int) {
    var s := After(cfg, EMPTY, events);
    Bounded(cfg, w, events) && r in s.requests && |RowsOf(s.awaiting, MemberOf(s, r))| == n
  }

  lemma HoldsNoMore(cfg: Config, w: nat, events: seq<Event>, r: int, n: int)
    requires HoldsRows(cfg, w, events, r, n)
    ensures n <= Cap(cfg, w)
  {
    RowsBound(cfg, w, events);
    assert r in After(cfg, EMPTY, events).requests;
  }

  /** The bound on rows is reached: for every limit and every w, some run with at most w decisions in
      flight parks limit + w messages behind one request, and none parks more. */
  lemma RowsBoundAttained(cfg: Config, w: nat)
    requires w > 0 && cfg.limit >= 0
    ensures exists events, r :: HoldsRows(cfg, w, events, r, Cap(cfg, w))
    ensures forall events, r, n | HoldsRows(cfg, w, events, r, n) :: n <= Cap(cfg, w)
    ensures Cap(cfg, w) == cfg.limit + w
  {
    var most := RowsRun(cfg, w);
    assert HoldsRows(cfg, w, most, CROWDED.request, Cap(cfg, w));
    forall events, r, n | HoldsRows(cfg, w, events, r, n)
      ensures n <= Cap(cfg, w)
    {
      HoldsNoMore(cfg, w, events, r, n);
    }
  }

  // ---- one more than limit + w

  /** Messages choose, insert and are counted, with the opener still to insert its row. */
  lemma {:induction false} FillBeside(cfg: Config, w: nat, n: nat) returns (plan: Plan)
    requires w > 1 && n <= cfg.limit
    ensures Leads(cfg, w, plan) == Some(Shape(n, Some(n), 0, 1, 0, false, false))
  {
    if n == 0 {
      return FromOpening;
    }
    plan := FillBeside(cfg, w, n - 1);
    var before := Shape(n - 1, Some(n - 1), 0, 1, 0, false, false);
    var inserted := Shape(n, Some(n - 1), 0, 1, 1, false, false);
    plan := Next(cfg, w, plan, before, ToChoose, before.(choosers := 1));
    plan := Next(cfg, w, plan, before.(choosers := 1), ToInsert, inserted);
    plan := Next(cfg, w, plan, inserted, ToCount, Shape(n, Some(n), 0, 1, 0, false, false));
  }

  /** A message meets the full request fulfilled, and a hydration offers it again at a score of limit. */
  lemma OfferedAgain(cfg: Config, w: nat) returns (plan: Plan)
    requires w > 1 && cfg.limit >= 1
    ensures Leads(cfg, w, plan) == Some(Shape(cfg.limit, Some(cfg.limit), 0, 1, 0, true, true))
  {
    plan := FillBeside(cfg, w, cfg.limit);
    var full := Shape(cfg.limit, Some(cfg.limit), 0, 1, 0, false, false);
    var met := Shape(cfg.limit, None, 0, 1, 0, true, true);
    plan := Next(cfg, w, plan, full, ToChoose, full.(choosers := 1));
    plan := Next(cfg, w, plan, full.(choosers := 1), ToMeet, met);
    plan := Next(cfg, w, plan, met, ToRehydrate, met.(score := Some(cfg.limit)));
  }

  /** Then its opener inserts a row that is not counted, w more messages choose it, and a hydration counts
      the row. */
  lemma ExcessPlan(cfg: Config, w: nat) returns (plan: Plan)
    requires w > 1 && cfg.limit >= 1
    ensures Leads(cfg, w, plan) == Some(Shape(cfg.limit + 1, Some(cfg.limit + 1), w, 0, 0, true, true))
  {
    var offered := Shape(cfg.limit, Some(cfg.limit), 0, 1, 0, true, true);
    var inserted := Shape(cfg.limit + 1, Some(cfg.limit), 0, 0, 1, true, true);
    plan := OfferedAgain(cfg, w);
    plan := Next(cfg, w, plan, offered, ToInsert, inserted);
    plan := Next(cfg, w, plan, inserted, ToCount, inserted.(uncounted := 0));
    plan := ChooseMore(cfg, w, plan, inserted.(uncounted := 0), w);
    plan := Next(cfg, w, plan, inserted.(choosers := w, uncounted := 0), ToRehydrate,
                 Shape(cfg.limit + 1, Some(cfg.limit + 1), w, 0, 0, true, true));
  }

  lemma ExcessRun(cfg: Config, w: nat) returns (events: seq<Event>)
    requires w > 1 && cfg.limit >= 1
    ensures Bounded(cfg, w, events)
    ensures var s := After(cfg, EMPTY, events);
            CROWDED.request in s.requests && ScoreAndFlight(s, MemberOf(s, CROWDED.request)) == Cap(cfg, w) + 1
  {
    var plan := ExcessPlan(cfg, w);
    var next;
    events, next := PlanReaches(cfg, w, plan);
    CrowdCounts(After(cfg, EMPTY, events), Leads(cfg, w, plan).value, next);
  }

  /** A request whose score and flight exceed limit + w. */
  ghost predicate Overloads(cfg: Config, w: nat, events: seq<Event>, r: int) {
    var s := After(cfg, EMPTY, events);
    Bounded(cfg, w, events) && r in s.requests && ScoreAndFlight(s, MemberOf(s, r)) > Cap(cfg, w)
  }

  lemma OverloadIsOne(cfg: Config, w: nat, events: seq<Event>, r: int)
    requires Overloads(cfg, w, events, r)
    ensures cfg.limit >= 1 && w >= 2
    ensures ScoreAndFlight(After(cfg, EMPTY, events), MemberOf(After(cfg, EMPTY, events), r)) == Cap(cfg, w) + 1
  {
    LoadBoundOf(cfg, w, events, r);
  }

  /** Score and flight of some request exceed limit + w in some run with at most w decisions in flight if
      and only if the limit is at least 1 and w at least 2; then they exceed it by one, never more. */
  lemma ExceedsExactly(cfg: Config, w: nat)
    ensures (exists events, r :: Overloads(cfg, w, events, r)) <==> cfg.limit >= 1 && w >= 2
    ensures forall events, r | Overloads(cfg, w, events, r) ::
              ScoreAndFlight(After(cfg, EMPTY, events), MemberOf(After(cfg, EMPTY, events), r)) == Cap(cfg, w) + 1
  {
    if cfg.limit >= 1 && w >= 2 {
      var events := ExcessRun(cfg, w);
      assert Overloads(cfg, w, events, CROWDED.request);
    }
    forall events, r | Overloads(cfg, w, events, r)
      ensures cfg.limit >= 1 && w >= 2
      ensures ScoreAndFlight(After(cfg, EMPTY, events), MemberOf(After(cfg, EMPTY, events), r)) == Cap(cfg, w) + 1
    {
      OverloadIsOne(cfg, w, events, r);
    }
  }
}

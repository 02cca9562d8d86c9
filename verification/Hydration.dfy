/**
 Hydrating the redis indexes of a profile (redis-index.ts): check the flag, lock, check again,
 hydrate every index, set the flag, unlock, mount the handlers. Any number of callers in several
 processes interleave, any redis call or index may fail, and the flag may be dropped at any time.
 A lock neither expires nor is flushed away, so a flush only happens while nobody holds it.
 */
module Hydration {
  import opened Common
  import opened Sets

  /** A registered index; `handles` if it has handlers to add. */
  datatype Spec = Spec(name: string, handles: bool)

  /** Where a call stands. `left` are the positions of the indexes still being hydrated. */
  datatype Pc =
    | Checking
    | Waiting
    | Rechecking
    | Hydrating(left: set<nat>)
    | Recording
    | Unlocking(ok: bool)
    | Mounting
    | Returned
    | Failed

  datatype Call = Call(process: int, pc: Pc)

  /** The names whose handlers a process has mounted, and every mounting it ever did. */
  datatype Mounts = Mounts(handlers: set<string>, mounted: multiset<string>)

  /** `running` are the index hydrations under way, by call and position; those of a failed call keep
      running. The counts are history: flag removals, hydrations begun, hydrations that failed, and the
      calls that recorded one as complete. */
  datatype State = State(flag: bool, lock: Option<int>, calls: map<int, Call>, running: set<(int, nat)>,
                         removals: nat, begun: nat, failures: nat, recordedBy: set<int>, mounts: map<int, Mounts>)

  datatype Event =
    | Arrive(call: int, process: int)
    | Check(call: int, fails: bool)
    | Acquire(call: int)
    | Recheck(call: int, fails: bool)
    | EndIndex(call: int, index: nat, ok: bool)
    | Record(call: int, fails: bool)
    | Unlock(call: int)
    | Mount(call: int)
    | Rehydrate
    | Flush

  const START := State(false, None, map[], {}, 0, 0, 0, {}, map[])

  // ---- handlers

  function EnsureHandlers(m: Mounts, spec: Spec): Mounts {
    if !spec.handles || spec.name in m.handlers then m
    else Mounts(m.handlers + {spec.name}, m.mounted + multiset{spec.name})
  }

  function EnsureAllHandlers(m: Mounts, specs: seq<Spec>): Mounts {
    if specs == [] then m
    else EnsureHandlers(EnsureAllHandlers(m, specs[..|specs| - 1]), specs[|specs| - 1])
  }

  function MountsOf(s: State, process: int): Mounts {
    if process in s.mounts then s.mounts[process] else Mounts({}, multiset{})
  }

  // ---- steps

  predicate At(s: State, c: int, pc: Pc) {
    c in s.calls && s.calls[c].pc == pc
  }

  predicate Enabled(s: State, e: Event) {
    match e
    case Arrive(c, _) => c !in s.calls
    case Check(c, _) => At(s, c, Checking)
    case Acquire(c) => At(s, c, Waiting) && s.lock.None?
    case Recheck(c, _) => At(s, c, Rechecking)
    case EndIndex(c, i, _) => c in s.calls && (c, i) in s.running
    case Record(c, _) => At(s, c, Recording)
    case Unlock(c) => c in s.calls && s.calls[c].pc.Unlocking?
    case Mount(c) => At(s, c, Mounting)
    case Rehydrate => true
    case Flush => s.lock.None?
  }

  function Move(s: State, c: int, pc: Pc): State
    requires c in s.calls
  {
    s.(calls := s.calls[c := s.calls[c].(pc := pc)])
  }

  function Positions(specs: seq<Spec>): (r: set<nat>)
    ensures forall i: nat :: i in r <==> i < |specs|
  {
    if specs == [] then {} else Positions(specs[..|specs| - 1]) + {|specs| - 1}
  }

  /** Promise.all over the hydrations of all indexes. */
  function BeginHydration(specs: seq<Spec>, s: State, c: int): State
    requires c in s.calls
  {
    var runs := set i | i in Positions(specs) :: (c, i);
    Move(s, c, if specs == [] then Recording else Hydrating(Positions(specs)))
    .(running := s.running + runs, begun := s.begun + 1)
  }

  function FailHydration(s: State, c: int): State
    requires c in s.calls
  {
    Move(s, c, Unlocking(false)).(failures := s.failures + 1)
  }

  /** The first failure rejects the whole hydration; after that the rest no longer matter to the call. */
  function ApplyEndIndex(s: State, c: int, i: nat, ok: bool): State
    requires c in s.calls && (c, i) in s.running
  {
    var s1 := s.(running := s.running - {(c, i)});
    match s.calls[c].pc
    case Hydrating(left) =>
      if !ok then FailHydration(s1, c)
      else Move(s1, c, if left - {i} == {} then Recording else Hydrating(left - {i}))
    case _ => s1
  }

  function DropFlag(s: State): State {
    s.(flag := false, removals := s.removals + One(s.flag))
  }

  function Apply(specs: seq<Spec>, s: State, e: Event): State
    requires Enabled(s, e)
  {
    match e
    case Arrive(c, p) => s.(calls := s.calls[c := Call(p, Checking)])
    case Check(c, fails) => Move(s, c, if fails then Failed else if s.flag then Mounting else Waiting)
    case Acquire(c) => Move(s, c, Rechecking).(lock := Some(c))
    case Recheck(c, fails) =>
      if fails then Move(s, c, Unlocking(false))
      else if s.flag then Move(s, c, Unlocking(true))
      else BeginHydration(specs, s, c)
    case EndIndex(c, i, ok) => ApplyEndIndex(s, c, i, ok)
    case Record(c, fails) =>
      if fails then FailHydration(s, c)
      else Move(s, c, Unlocking(true)).(flag := true, recordedBy := s.recordedBy + {c})
    case Unlock(c) => Move(s, c, if s.calls[c].pc.ok then Mounting else Failed).(lock := None)
    case Mount(c) =>
      var p := s.calls[c].process;
      Move(s, c, Returned).(mounts := s.mounts[p := EnsureAllHandlers(MountsOf(s, p), specs)])
    case Rehydrate => DropFlag(s)
    case Flush => DropFlag(s)
  }

  function Step(specs: seq<Spec>, s: State, e: Event): State {
    if Enabled(s, e) then Apply(specs, s, e) else s
  }

  /** Events that cannot happen are skipped, so every sequence of events is a run. */
  function Run(specs: seq<Spec>, s: State, events: seq<Event>): State {
    if events == [] then s
    else Step(specs, Run(specs, s, events[..|events| - 1]), events[|events| - 1])
  }

  function After(specs: seq<Spec>, events: seq<Event>): State {
    Run(specs, START, events)
  }

  lemma {:induction false} RunConcat(specs: seq<Spec>, s: State, a: seq<Event>, b: seq<Event>)
    ensures Run(specs, s, a + b) == Run(specs, Run(specs, s, a), b)
    decreases |b|
  {
    if b == [] {
      assert a + b == a;
    } else {
      RunConcat(specs, s, a, b[..|b| - 1]);
      assert (a + b)[..|a + b| - 1] == a + b[..|b| - 1];
    }
  }

  function CallOf(e: Event): Option<int> {
    match e
    case Rehydrate => None
    case Flush => None
    case _ => Some(e.call)
  }

  /** The events of other calls leave a call where it stands. */
  lemma {:induction false} OthersLeaveCall(specs: seq<Spec>, s: State, events: seq<Event>, c: int)
    requires c in s.calls && forall e | e in events :: CallOf(e) != Some(c)
    ensures var s' := Run(specs, s, events); c in s'.calls && s'.calls[c] == s.calls[c]
  {
    if events != [] {
      OthersLeaveCall(specs, s, events[..|events| - 1], c);
      assert CallOf(events[|events| - 1]) != Some(c);
    }
  }

  // ---- invariant

  predicate Critical(pc: Pc) {
    pc.Rechecking? || pc.Hydrating? || pc.Recording? || pc.Unlocking?
  }

  predicate Busy(pc: Pc) {
    pc.Hydrating? || pc.Recording?
  }

  predicate BusyHolder(s: State) {
    s.lock.Some? && s.lock.value in s.calls && Busy(s.calls[s.lock.value].pc)
  }

  /** Mutual exclusion: the calls in the critical section are exactly the lock's holder. */
  ghost predicate Exclusive(s: State) {
    (s.lock.Some? ==> s.lock.value in s.calls)
    && forall c | c in s.calls :: Critical(s.calls[c].pc) <==> s.lock == Some(c)
  }

  /** What a hydration still lacks its own runs will bring. */
  ghost predicate Accounted(specs: seq<Spec>, s: State, c: int, left: set<nat>) {
    left != {} && left <= Positions(specs) && forall i | i in left :: (c, i) in s.running
  }

  ghost predicate CallKept(specs: seq<Spec>, s: State, c: int)
    requires c in s.calls
  {
    var pc := s.calls[c].pc;
    && (pc.Hydrating? ==> Accounted(specs, s, c, pc.left))
    && (forall i: nat | (c, i) in s.running :: pc.Hydrating? ==> i in pc.left)
    && (Busy(pc) ==> !s.flag)
    && (c in s.recordedBy ==> pc == Unlocking(true) || pc == Mounting || pc == Returned)
  }

  ghost predicate RunsKept(specs: seq<Spec>, s: State) {
    && (forall k | k in s.running :: k.0 in s.calls && k.1 in Positions(specs))
    && forall c | c in s.recordedBy :: c in s.calls
  }

  ghost predicate Counted(s: State) {
    && |s.recordedBy| == s.removals + One(s.flag)
    && s.begun == |s.recordedBy| + s.failures + One(BusyHolder(s))
  }

  /** Handlers have been mounted once for each name a process has, and never again. */
  ghost predicate MountedOnce(m: Mounts) {
    forall name :: m.mounted[name] == One(name in m.handlers)
  }

  predicate HandlersReady(specs: seq<Spec>, m: Mounts) {
    forall spec | spec in specs :: spec.handles ==> spec.name in m.handlers
  }

  ghost predicate MountsKept(specs: seq<Spec>, s: State) {
    && (forall p | p in s.mounts :: MountedOnce(s.mounts[p]))
    && (forall c | c in s.calls && s.calls[c].pc == Returned :: HandlersReady(specs, MountsOf(s, s.calls[c].process)))
  }

  ghost predicate Sound(specs: seq<Spec>, s: State) {
    && Exclusive(s)
    && (forall c | c in s.calls :: CallKept(specs, s, c))
    && RunsKept(specs, s)
    && Counted(s)
    && MountsKept(specs, s)
  }

  // ---- every step keeps it

  lemma {:induction false} MountedAll(m: Mounts, specs: seq<Spec>)
    requires MountedOnce(m)
    ensures var m' := EnsureAllHandlers(m, specs);
            MountedOnce(m') && m.handlers <= m'.handlers && HandlersReady(specs, m')
  {
    if specs != [] {
      var before := specs[..|specs| - 1];
      MountedAll(m, before);
      assert forall spec | spec in specs :: spec in before || spec == specs[|specs| - 1];
    }
  }

  lemma {:induction false} AllReady(m: Mounts, specs: seq<Spec>)
    ensures HandlersReady(specs, EnsureAllHandlers(m, specs))
  {
    if specs != [] {
      var before := specs[..|specs| - 1];
      AllReady(m, before);
      assert forall spec | spec in specs :: spec in before || spec == specs[|specs| - 1];
    }
  }

  lemma MoveOnly(specs: seq<Spec>, s: State, c: int, pc: Pc)
    requires Sound(specs, s) && c in s.calls && !Critical(pc) && !Critical(s.calls[c].pc)
    requires pc != Returned && (c in s.recordedBy ==> pc == Mounting)
    ensures Sound(specs, Move(s, c, pc))
  {
  }

  lemma CheckSound(specs: seq<Spec>, s: State, c: int, fails: bool)
    requires Sound(specs, s) && At(s, c, Checking)
    ensures Sound(specs, Apply(specs, s, Check(c, fails)))
  {
    MoveOnly(specs, s, c, if fails then Failed else if s.flag then Mounting else Waiting);
  }

  lemma ArriveSound(specs: seq<Spec>, s: State, c: int, p: int)
    requires Sound(specs, s) && c !in s.calls
    ensures Sound(specs, Apply(specs, s, Arrive(c, p)))
  {
  }

  lemma AcquireSound(specs: seq<Spec>, s: State, c: int)
    requires Sound(specs, s) && At(s, c, Waiting) && s.lock.None?
    ensures Sound(specs, Apply(specs, s, Acquire(c)))
  {
  }

  lemma BeginSound(specs: seq<Spec>, s: State, c: int)
    requires Sound(specs, s) && At(s, c, Rechecking) && !s.flag
    ensures Sound(specs, BeginHydration(specs, s, c))
  {
    assert s.lock == Some(c);
    var s' := BeginHydration(specs, s, c);
    forall d | d in s'.calls
      ensures CallKept(specs, s', d)
    {
      assert CallKept(specs, s, d);
      if d == c {
        assert specs != [] ==> |specs| - 1 in Positions(specs);
      }
    }
  }

  lemma RecheckSound(specs: seq<Spec>, s: State, c: int, fails: bool)
    requires Sound(specs, s) && At(s, c, Rechecking)
    ensures Sound(specs, Apply(specs, s, Recheck(c, fails)))
  {
    if !fails && !s.flag {
      BeginSound(specs, s, c);
    } else {
      assert s.lock == Some(c);
    }
  }

  /** An index hydration left over from a call that has failed. */
  lemma StrayIndexSound(specs: seq<Spec>, s: State, c: int, i: nat, ok: bool)
    requires Sound(specs, s) && c in s.calls && (c, i) in s.running && !s.calls[c].pc.Hydrating?
    ensures Sound(specs, ApplyEndIndex(s, c, i, ok))
  {
  }

  lemma FailedIndexSound(specs: seq<Spec>, s: State, c: int, i: nat)
    requires Sound(specs, s) && c in s.calls && (c, i) in s.running && s.calls[c].pc.Hydrating?
    ensures Sound(specs, ApplyEndIndex(s, c, i, false))
  {
    assert s.lock == Some(c);
  }

  lemma LastIndexSound(specs: seq<Spec>, s: State, c: int, i: nat)
    requires Sound(specs, s) && c in s.calls && (c, i) in s.running
    requires s.calls[c].pc.Hydrating? && s.calls[c].pc.left == {i}
    ensures Sound(specs, ApplyEndIndex(s, c, i, true))
  {
    assert s.lock == Some(c) && CallKept(specs, s, c);
    assert s.calls[c].pc.left - {i} == {};
  }

  lemma InnerIndexSound(specs: seq<Spec>, s: State, c: int, i: nat)
    requires Sound(specs, s) && c in s.calls && (c, i) in s.running
    requires s.calls[c].pc.Hydrating? && s.calls[c].pc.left - {i} != {}
    ensures Sound(specs, ApplyEndIndex(s, c, i, true))
  {
    assert s.lock == Some(c) && CallKept(specs, s, c);
  }

  lemma FinishedIndexSound(specs: seq<Spec>, s: State, c: int, i: nat)
    requires Sound(specs, s) && c in s.calls && (c, i) in s.running && s.calls[c].pc.Hydrating?
    ensures Sound(specs, ApplyEndIndex(s, c, i, true))
  {
    assert CallKept(specs, s, c);
    if s.calls[c].pc.left - {i} == {} {
      assert s.calls[c].pc.left == {i};
      LastIndexSound(specs, s, c, i);
    } else {
      InnerIndexSound(specs, s, c, i);
    }
  }

  lemma EndIndexSound(specs: seq<Spec>, s: State, c: int, i: nat, ok: bool)
    requires Sound(specs, s) && c in s.calls && (c, i) in s.running
    ensures Sound(specs, Apply(specs, s, EndIndex(c, i, ok)))
  {
    if !s.calls[c].pc.Hydrating? {
      StrayIndexSound(specs, s, c, i, ok);
    } else if ok {
      FinishedIndexSound(specs, s, c, i);
    } else {
      FailedIndexSound(specs, s, c, i);
    }
  }

  lemma RecordSound(specs: seq<Spec>, s: State, c: int, fails: bool)
    requires Sound(specs, s) && At(s, c, Recording)
    ensures Sound(specs, Apply(specs, s, Record(c, fails)))
  {
    assert s.lock == Some(c);
    if fails {
    } else {
    }
  }

  lemma UnlockSound(specs: seq<Spec>, s: State, c: int)
    requires Sound(specs, s) && c in s.calls && s.calls[c].pc.Unlocking?
    ensures Sound(specs, Apply(specs, s, Unlock(c)))
  {
    assert s.lock == Some(c);
  }

  lemma MountSound(specs: seq<Spec>, s: State, c: int)
    requires Sound(specs, s) && At(s, c, Mounting)
    ensures Sound(specs, Apply(specs, s, Mount(c)))
  {
    MountedAll(MountsOf(s, s.calls[c].process), specs);
  }

  lemma DropSound(specs: seq<Spec>, s: State, e: Event)
    requires Sound(specs, s) && Enabled(s, e) && (e == Rehydrate || e == Flush)
    ensures Sound(specs, Apply(specs, s, e))
  {
    match e
    case Rehydrate =>
    case Flush =>
  }

  lemma StepSound(specs: seq<Spec>, s: State, e: Event)
    requires Sound(specs, s)
    ensures Sound(specs, Step(specs, s, e))
  {
    if Enabled(s, e) {
      match e
      case Arrive(c, p) => ArriveSound(specs, s, c, p);
      case Check(c, fails) => CheckSound(specs, s, c, fails);
      case Acquire(c) => AcquireSound(specs, s, c);
      case Recheck(c, fails) => RecheckSound(specs, s, c, fails);
      case EndIndex(c, i, ok) => EndIndexSound(specs, s, c, i, ok);
      case Record(c, fails) => RecordSound(specs, s, c, fails);
      case Unlock(c) => UnlockSound(specs, s, c);
      case Mount(c) => MountSound(specs, s, c);
      case Rehydrate => DropSound(specs, s, e);
      case Flush => DropSound(specs, s, e);
    }
  }

  lemma {:induction false} RunSound(specs: seq<Spec>, s: State, events: seq<Event>)
    requires Sound(specs, s)
    ensures Sound(specs, Run(specs, s, events))
  {
    if events != [] {
      RunSound(specs, s, events[..|events| - 1]);
      StepSound(specs, Run(specs, s, events[..|events| - 1]), events[|events| - 1]);
    }
  }

  lemma StartKept(specs: seq<Spec>)
    ensures Exclusive(START) && RunsKept(specs, START) && MountsKept(specs, START)
    ensures forall c | c in START.calls :: CallKept(specs, START, c)
  {
  }

  lemma StartCounted()
    ensures Counted(START) && !START.flag
  {
  }

  lemma StartSound(specs: seq<Spec>)
    ensures Sound(specs, START)
  {
    StartKept(specs);
    StartCounted();
  }

  lemma SoundAfter(specs: seq<Spec>, events: seq<Event>)
    ensures Sound(specs, After(specs, events))
  {
    StartSound(specs);
    RunSound(specs, START, events);
  }

  // ---- what callers may rely on

  /** However many callers race, a profile is hydrated at most once more than its flag was removed;
      hydrations are begun at most that often plus once for each that failed. */
  lemma HydrationsBounded(specs: seq<Spec>, events: seq<Event>)
    ensures var s := After(specs, events);
            && |s.recordedBy| <= 1 + s.removals
            && (s.flag <==> |s.recordedBy| == 1 + s.removals)
            && s.begun <= 1 + s.removals + s.failures
  {
    SoundAfter(specs, events);
    var s := After(specs, events);
    assert BusyHolder(s) ==> CallKept(specs, s, s.lock.value);
  }

  /** A call that ends in an error, or is about to, has not set the flag; only the one call holding
      the lock ever sets it. */
  lemma FailedCallNeverRecorded(specs: seq<Spec>, events: seq<Event>, c: int)
    requires var s := After(specs, events); At(s, c, Failed) || At(s, c, Unlocking(false))
    ensures c !in After(specs, events).recordedBy
  {
    SoundAfter(specs, events);
  }

  lemma OnlyRecordSetsFlag(specs: seq<Spec>, s: State, e: Event)
    requires !s.flag && Step(specs, s, e).flag
    ensures e.Record? && At(s, e.call, Recording)
  {
    match e
    case EndIndex(c, i, ok) =>
    case Recheck(c, fails) =>
    case _ =>
  }

  lemma FlagSetByHolder(specs: seq<Spec>, events: seq<Event>, e: Event)
    requires !After(specs, events).flag && Step(specs, After(specs, events), e).flag
    ensures var s := After(specs, events);
            e.Record? && s.lock == Some(e.call) && e.call !in s.recordedBy
  {
    var s := After(specs, events);
    OnlyRecordSetsFlag(specs, s, e);
    SoundAfter(specs, events);
    assert CallKept(specs, s, e.call);
  }

  /** No two calls are ever between lock and unlock. */
  lemma OneInside(specs: seq<Spec>, events: seq<Event>, c: int, d: int)
    requires var s := After(specs, events);
             c in s.calls && d in s.calls && Critical(s.calls[c].pc) && Critical(s.calls[d].pc)
    ensures c == d
  {
    SoundAfter(specs, events);
  }

  /** A process never mounts the handlers of a name twice, and once a call has returned in it, all
      registered indexes that have handlers have them mounted. */
  lemma HandlersMountedOnce(specs: seq<Spec>, events: seq<Event>, p: int, name: string)
    ensures var s := After(specs, events);
            && MountsOf(s, p).mounted[name] <= 1
            && ((exists c :: c in s.calls && s.calls[c] == Call(p, Returned)) && Spec(name, true) in specs
                ==> MountsOf(s, p).mounted[name] == 1)
  {
    SoundAfter(specs, events);
    var s := After(specs, events);
    assert MountedOnce(MountsOf(s, p));
    if (exists c :: c in s.calls && s.calls[c] == Call(p, Returned)) && Spec(name, true) in specs {
      var c :| c in s.calls && s.calls[c] == Call(p, Returned);
      assert HandlersReady(specs, MountsOf(s, p));
    }
  }

  // ---- progress

  predicate Unfinished(pc: Pc) {
    pc != Returned && pc != Failed
  }

  /** No deadlock: an unfinished call can take a step of its own, or waits for a holder that can. */
  lemma NeverStuck(specs: seq<Spec>, events: seq<Event>, c: int)
    requires var s := After(specs, events); c in s.calls && Unfinished(s.calls[c].pc)
    ensures var s := After(specs, events);
            var mover := if s.calls[c].pc.Waiting? && s.lock.Some? then s.lock.value else c;
            exists e :: Enabled(s, e) && CallOf(e) == Some(mover)
  {
    SoundAfter(specs, events);
    var s := After(specs, events);
    var mover := if s.calls[c].pc.Waiting? && s.lock.Some? then s.lock.value else c;
    assert mover in s.calls && CallKept(specs, s, mover);
    var e := match s.calls[mover].pc
      case Checking => Check(mover, false)
      case Waiting => Acquire(mover)
      case Rechecking => Recheck(mover, false)
      case Hydrating(left) => EndIndex(mover, Pick(left), true)
      case Recording => Record(mover, false)
      case Unlocking(_) => Unlock(mover)
      case _ => Mount(mover);
    assert Enabled(s, e) && CallOf(e) == Some(mover);
  }
}

/**
 The index registry as redis-index.ts runs it: module-level lists that a process adds to, and the
 flag and lock it sets and clears in redis. One call is followed statement by statement; each redis
 command is one event of the interleaved protocol, which is tracked alongside.
 */
module RedisIndex {
  import opened Common
  import H = Hydration

  /** The hydration flag and lock of a profile. `run` is the state of the protocol they belong to. */
  class Redis {
    var flag: bool
    var lock: Option<int>
    ghost var run: H.State

    constructor ()
      ensures flag == false && lock == None && run == H.START
    {
      flag, lock, run := false, None, H.START;
    }

    ghost predicate Valid()
      reads this
    {
      flag == run.flag && lock == run.lock
    }

    ghost method Note(specs: seq<H.Spec>, start: H.State, trace: seq<H.Event>, e: H.Event)
      returns (trace': seq<H.Event>)
      requires run == H.Run(specs, start, trace) && H.Enabled(run, e)
      modifies `run
      ensures run == H.Apply(specs, old(run), e)
      ensures run == H.Run(specs, start, trace') && trace' == trace + [e]
    {
      trace' := trace + [e];
      assert trace'[..|trace'| - 1] == trace;
      run := H.Apply(specs, run, e);
    }
  }

  class Process {
    const id: int
    var allIndexes: seq<H.Spec>
    var handlers: set<string>
    var mounted: multiset<string>

    constructor (id: int)
      ensures this.id == id && allIndexes == [] && Model() == H.Mounts({}, multiset{})
    {
      this.id, allIndexes, handlers, mounted := id, [], {}, multiset{};
    }

    ghost function Model(): H.Mounts
      reads `handlers, `mounted
    {
      H.Mounts(handlers, mounted)
    }

    method ConstructMethodFromIndexSpec(spec: H.Spec)
      modifies `allIndexes
      ensures allIndexes == old(allIndexes) + [spec]
    {
      allIndexes := allIndexes + [spec];
    }

    method EnsureHandlers(spec: H.Spec)
      modifies `handlers, `mounted
      ensures Model() == H.EnsureHandlers(old(Model()), spec)
    {
      if !spec.handles || spec.name in handlers {
        return;
      }
      mounted := mounted + multiset{spec.name};
      handlers := handlers + {spec.name};
    }

    method EnsureAllHandlers()
      modifies `handlers, `mounted
      ensures Model() == H.EnsureAllHandlers(old(Model()), allIndexes)
    {
      var i := 0;
      while i < |allIndexes|
        invariant 0 <= i <= |allIndexes|
        invariant Model() == H.EnsureAllHandlers(old(Model()), allIndexes[..i])
      {
        EnsureHandlers(allIndexes[i]);
        i := i + 1;
        assert allIndexes[..i][..i - 1] == allIndexes[..i - 1];
      }
      assert allIndexes[..i] == allIndexes;
    }

    /** One call. While it waits for the lock others run, `meanwhile`, and leave behind `interim`.
        `hydrates` says which indexes hydrate without error, `order` in which order they end. The call
        succeeds if and only if no check fails and the profile was hydrated, before or while it waited,
        or every index and the record succeed; then the flag is set and every handler mounted. Otherwise
        it has set neither. The lock is given back. */
    method EnsureHydrated(redis: Redis, c: int, interim: Interim, ghost meanwhile: seq<H.Event>,
                          hydrates: seq<bool>, order: seq<nat>, faults: Faults)
      returns (ok: bool, ghost trace: seq<H.Event>)
      requires redis.Valid() && c !in redis.run.calls && H.MountsOf(redis.run, id) == Model()
      requires |hydrates| == |allIndexes| && InSomeOrder(allIndexes, order)
      requires !redis.flag && !faults.check ==> WaitsFor(allIndexes, redis.run, c, id, interim, meanwhile)
      modifies redis, `handlers, `mounted
      ensures redis.run == H.Run(allIndexes, old(redis.run), trace) && redis.Valid()
      ensures H.MountsOf(redis.run, id) == Model()
      ensures if old(redis.flag) || faults.check then redis.lock == old(redis.lock) else redis.lock.None?
      ensures ok <==> CallSucceeds(old(redis.flag), interim, hydrates, faults)
      ensures H.At(redis.run, c, if ok then H.Returned else H.Failed)
      ensures ok ==> redis.flag && H.HandlersReady(allIndexes, Model())
      ensures !ok && faults.check ==> redis.flag == old(redis.flag) && Model() == old(Model())
      ensures !ok && !faults.check ==> redis.flag == interim.flag && Model() == interim.mounts
    {
      ghost var specs, start := allIndexes, redis.run;
      trace := redis.Note(specs, start, [], H.Arrive(c, id));
      var isHydrated := redis.flag;
      trace := redis.Note(specs, start, trace, H.Check(c, faults.check));
      if faults.check {
        return false, trace;
      }
      assert trace == [H.Arrive(c, id), H.Check(c, false)];
      if !isHydrated {
        trace := WaitForLock(redis, c, interim, meanwhile, start, trace);
        ok, trace := HydrateWithLock(redis, c, hydrates, order, faults, start, trace);
        if !ok {
          return;
        }
      }
      trace := MountHandlers(redis, c, start, trace);
      ok := true;
    }

    /** The last step of a call. */
    method MountHandlers(redis: Redis, c: int, ghost start: H.State, ghost before: seq<H.Event>)
      returns (ghost trace: seq<H.Event>)
      requires redis.Valid() && H.At(redis.run, c, H.Mounting) && redis.run.calls[c].process == id
      requires redis.run == H.Run(allIndexes, start, before) && H.MountsOf(redis.run, id) == Model()
      modifies redis`run, `handlers, `mounted
      ensures redis.run == H.Run(allIndexes, start, trace) && redis.Valid()
      ensures H.MountsOf(redis.run, id) == Model() && H.HandlersReady(allIndexes, Model())
      ensures H.At(redis.run, c, H.Returned)
    {
      H.AllReady(Model(), allIndexes);
      EnsureAllHandlers();
      trace := redis.Note(allIndexes, start, before, H.Mount(c));
    }

    /** Other calls run until the lock is free. */
    method WaitForLock(redis: Redis, c: int, interim: Interim, ghost meanwhile: seq<H.Event>,
                       ghost start: H.State, ghost before: seq<H.Event>)
      returns (ghost trace: seq<H.Event>)
      requires before == [H.Arrive(c, id), H.Check(c, false)] && redis.run == H.Run(allIndexes, start, before)
      requires H.At(redis.run, c, H.Waiting) && redis.run.calls[c].process == id
      requires WaitsFor(allIndexes, start, c, id, interim, meanwhile)
      modifies redis, `handlers, `mounted
      ensures redis.run == H.Run(allIndexes, start, trace) && redis.Valid()
      ensures H.At(redis.run, c, H.Waiting) && redis.run.calls[c].process == id
      ensures redis.lock.None? && redis.flag == interim.flag && Model() == interim.mounts == H.MountsOf(redis.run, id)
    {
      H.RunConcat(allIndexes, start, before, meanwhile);
      H.OthersLeaveCall(allIndexes, redis.run, meanwhile, c);
      trace := before + meanwhile;
      redis.run := H.Run(allIndexes, redis.run, meanwhile);
      redis.flag, redis.lock := interim.flag, None;
      handlers, mounted := interim.mounts.handlers, interim.mounts.mounted;
    }

    /** Takes the lock, does the locked part, and gives it back. */
    method HydrateWithLock(redis: Redis, c: int, hydrates: seq<bool>, order: seq<nat>, faults: Faults,
                           ghost start: H.State, ghost before: seq<H.Event>)
      returns (ok: bool, ghost trace: seq<H.Event>)
      requires redis.Valid() && redis.lock.None? && H.At(redis.run, c, H.Waiting)
      requires |hydrates| == |allIndexes| && InSomeOrder(allIndexes, order)
      requires redis.run == H.Run(allIndexes, start, before)
      modifies redis
      ensures redis.run == H.Run(allIndexes, start, trace) && redis.Valid() && redis.lock.None?
      ensures H.At(redis.run, c, if ok then H.Mounting else H.Failed)
      ensures redis.run.mounts == old(redis.run.mounts)
      ensures redis.run.calls[c].process == old(redis.run.calls[c].process)
      ensures ok <==> LockedSucceeds(old(redis.flag), hydrates, faults)
      ensures redis.flag == (ok || old(redis.flag))
    {
      redis.lock := Some(c);
      trace := redis.Note(allIndexes, start, before, H.Acquire(c));
      assert H.At(redis.run, c, H.Rechecking);
      ok, trace := HydrateLocked(redis, c, hydrates, order, faults, start, trace);
      redis.lock := None;
      trace := redis.Note(allIndexes, start, trace, H.Unlock(c));
    }

    /** The locked part: check again, hydrate every index until one fails, record. */
    method HydrateLocked(redis: Redis, c: int, hydrates: seq<bool>, order: seq<nat>, faults: Faults,
                         ghost start: H.State, ghost before: seq<H.Event>)
      returns (ok: bool, ghost trace: seq<H.Event>)
      requires redis.Valid() && redis.lock == Some(c) && H.At(redis.run, c, H.Rechecking)
      requires |hydrates| == |allIndexes| && InSomeOrder(allIndexes, order)
      requires redis.run == H.Run(allIndexes, start, before)
      modifies redis`flag, redis`run
      ensures redis.run == H.Run(allIndexes, start, trace) && redis.Valid()
      ensures H.At(redis.run, c, H.Unlocking(ok))
      ensures redis.run.mounts == old(redis.run.mounts)
      ensures redis.run.calls[c].process == old(redis.run.calls[c].process)
      ensures ok <==> LockedSucceeds(old(redis.flag), hydrates, faults)
      ensures redis.flag == (ok || old(redis.flag))
    {
      ghost var specs := allIndexes;
      var someoneElseHydrated := redis.flag;
      trace := redis.Note(specs, start, before, H.Recheck(c, faults.recheck));
      if faults.recheck {
        return false, trace;
      }
      if someoneElseHydrated {
        return true, trace;
      }
      assert Rest(specs, order, 0) == H.Positions(specs);
      ok, trace := HydrateAll(redis, c, hydrates, order, start, trace);
      if !ok {
        return;
      }
      trace := redis.Note(specs, start, trace, H.Record(c, faults.record));
      if faults.record {
        return false, trace;
      }
      redis.flag := true;
    }

    /** Promise.all over the indexes, which end in any order; rejected by the first to fail. */
    method HydrateAll(redis: Redis, c: int, hydrates: seq<bool>, order: seq<nat>,
                      ghost start: H.State, ghost before: seq<H.Event>)
      returns (ok: bool, ghost trace: seq<H.Event>)
      requires redis.Valid() && !redis.flag && redis.lock == Some(c)
      requires |hydrates| == |allIndexes| && InSomeOrder(allIndexes, order)
      requires H.At(redis.run, c, if order == [] then H.Recording else H.Hydrating(Rest(allIndexes, order, 0)))
      requires forall k | k in Rest(allIndexes, order, 0) :: (c, k) in redis.run.running
      requires redis.run == H.Run(allIndexes, start, before)
      modifies redis`run
      ensures redis.run == H.Run(allIndexes, start, trace) && redis.Valid()
      ensures H.At(redis.run, c, if ok then H.Recording else H.Unlocking(false))
      ensures redis.run.mounts == old(redis.run.mounts)
      ensures redis.run.calls[c].process == old(redis.run.calls[c].process)
      ensures ok <==> false !in hydrates
    {
      ghost var specs := allIndexes;
      trace := before;
      var i := 0;
      while i < |order|
        invariant 0 <= i <= |order|
        invariant forall k | 0 <= k < i :: order[k] < |hydrates| && hydrates[order[k]]
        invariant redis.run == H.Run(specs, start, trace) && redis.Valid()
        invariant c in redis.run.calls && redis.run.calls[c].process == old(redis.run.calls[c].process)
        invariant redis.run.mounts == old(redis.run.mounts)
        invariant redis.run.calls[c].pc == if i < |order| then H.Hydrating(Rest(specs, order, i)) else H.Recording
        invariant forall k | k in Rest(specs, order, i) :: (c, k) in redis.run.running
      {
        NextOfRest(specs, order, i);
        trace := redis.Note(specs, start, trace, H.EndIndex(c, order[i], hydrates[order[i]]));
        if !hydrates[order[i]] {
          return false, trace;
        }
        i := i + 1;
      }
      forall p: nat | p < |hydrates|
        ensures hydrates[p]
      {
        assert p in order;
        var k :| 0 <= k < |order| && order[k] == p;
        assert hydrates[order[k]];
      }
      ok := true;
    }

    /** What ConstructMethodFromIndexSpec returns: the index's own lookup, which answers `answer`, None if
        it fails, is only made once the profile is hydrated and all handlers are mounted; the flag may be
        dropped before it. */
    method CallReturnedMethod<R>(redis: Redis, c: int, interim: Interim, ghost meanwhile: seq<H.Event>,
                                 hydrates: seq<bool>, order: seq<nat>, faults: Faults, dropped: bool,
                                 answer: Option<R>)
      returns (r: Option<R>, ghost trace: seq<H.Event>)
      requires redis.Valid() && c !in redis.run.calls && H.MountsOf(redis.run, id) == Model()
      requires |hydrates| == |allIndexes| && InSomeOrder(allIndexes, order)
      requires !redis.flag && !faults.check ==> WaitsFor(allIndexes, redis.run, c, id, interim, meanwhile)
      modifies redis, `handlers, `mounted
      ensures redis.run == H.Run(allIndexes, old(redis.run), trace) && redis.Valid()
      ensures r == if CallSucceeds(old(redis.flag), interim, hydrates, faults) then answer else None
      ensures r.Some? ==> H.At(redis.run, c, H.Returned) && H.HandlersReady(allIndexes, Model())
      ensures r.Some? ==> redis.flag == !dropped
    {
      var ok;
      ok, trace := EnsureHydrated(redis, c, interim, meanwhile, hydrates, order, faults);
      if !ok {
        return None, trace;
      }
      if dropped {
        trace := redis.Note(allIndexes, old(redis.run), trace, H.Rehydrate);
        redis.flag := false;
      }
      r := answer;
    }
  }

  /** Which of a call's own redis commands fail: the first check, the one under the lock, the record. */
  datatype Faults = Faults(check: bool, recheck: bool, record: bool)

  predicate LockedSucceeds(flag: bool, hydrates: seq<bool>, faults: Faults) {
    !faults.recheck && (flag || (!faults.record && false !in hydrates))
  }

  predicate CallSucceeds(flag: bool, interim: Interim, hydrates: seq<bool>, faults: Faults) {
    !faults.check && (flag || LockedSucceeds(interim.flag, hydrates, faults))
  }

  /** What other calls have made of the flag, and of this process's handlers, by the time a waiting call
      is granted the lock. */
  datatype Interim = Interim(flag: bool, mounts: H.Mounts)

  /** While the call waits only others run, and then the lock is free. */
  ghost predicate WaitsFor(specs: seq<H.Spec>, start: H.State, c: int, process: int, interim: Interim,
                           meanwhile: seq<H.Event>)
  {
    var s := H.Run(specs, start, [H.Arrive(c, process), H.Check(c, false)] + meanwhile);
    && (forall e | e in meanwhile :: H.CallOf(e) != Some(c))
    && s.lock.None? && s.flag == interim.flag && H.MountsOf(s, process) == interim.mounts
  }

  /** Every position once. */
  ghost predicate InSomeOrder(specs: seq<H.Spec>, order: seq<nat>) {
    && |order| == |specs|
    && (forall i, j | 0 <= i < j < |order| :: order[i] != order[j])
    && (forall p: nat :: p in order <==> p < |specs|)
  }

  /** The positions that have not ended after the first i. */
  ghost function Rest(specs: seq<H.Spec>, order: seq<nat>, i: nat): (r: set<nat>)
    requires i <= |order|
    ensures forall k: nat :: k in r <==> k < |specs| && k !in order[..i]
  {
    set k | k in H.Positions(specs) && k !in order[..i]
  }

  lemma NextOfRest(specs: seq<H.Spec>, order: seq<nat>, i: nat)
    requires InSomeOrder(specs, order) && i < |order|
    ensures order[i] in order && order[i] < |specs| && order[i] in Rest(specs, order, i)
    ensures Rest(specs, order, i) - {order[i]} == Rest(specs, order, i + 1)
    ensures Rest(specs, order, i + 1) == {} <==> i + 1 == |order|
  {
    assert order[..i + 1] == order[..i] + [order[i]];
    if i + 1 < |order| {
      assert order[i + 1] in order && order[i + 1] in Rest(specs, order, i + 1);
    } else {
      assert order[..i + 1] == order;
    }
  }
}

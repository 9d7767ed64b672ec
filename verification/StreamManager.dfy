/** The instant-log manager: a map of streams guarded by a mutex, one goroutine per stream,
    and a WaitGroup that the shutdown waits on. Lock, unlock, Add and Done are steps. */
module StreamManager {
  import opened Base

  datatype Phase = Streaming | AtLock | InLock | Unlocked | Finished

  datatype Routine = Routine(zone: Uuid, cancelled: bool, phase: Phase)

  // Where the manager goroutine stands. It holds the mutex while it removes and adds
  // streams and, as stopAll is written, while it waits.
  datatype Manager =
    | Idle
    | Listed(business: set<Uuid>)
    | Removing(business: set<Uuid>)
    | Adding(business: set<Uuid>)
    | WantsStop
    | Stopping
    | Waiting
    | Returned

  datatype Mutex = Free | HeldByManager | HeldBy(i: nat)

  datatype State = State(
    parentCancelled: bool, manager: Manager, mutex: Mutex,
    streams: map<Uuid, nat>, routines: seq<Routine>, waitGroup: int)

  datatype Event =
    | CancelParent
    | List(business: set<Uuid>)
    | LockForSync
    | Remove(zone: Uuid)
    | RemovedAll
    | Add(zone: Uuid)
    | UnlockAfterSync
    | BeginStop
    | LockForStop
    | BeginWait
    | Return
    | StreamEnds(i: nat)
    | RoutineLocks(i: nat)
    | RoutineUnlocks(i: nat)
    | RoutineDone(i: nat)

  function WithPhase(s: State, i: nat, phase: Phase): State
    requires i < |s.routines|
  {
    s.(routines := s.routines[i := s.routines[i].(phase := phase)])
  }

  predicate In(s: State, i: nat, phase: Phase) {
    i < |s.routines| && s.routines[i].phase == phase
  }

  // cancel() and delete() for one entry of the map.
  function Cancel(s: State, zone: Uuid): State
    requires zone in s.streams
  {
    var i := s.streams[zone];
    s.(streams := s.streams - {zone},
       routines := if i < |s.routines| then s.routines[i := s.routines[i].(cancelled := true)] else s.routines)
  }

  // releaseFirst says whether stopAll unlocks before it waits; the code does not.
  function Step(releaseFirst: bool, s: State, e: Event): Option<State> {
    match e
    case CancelParent => if s.parentCancelled then None else Some(s.(parentCancelled := true))
    case List(business) => if s.manager != Idle then None else Some(s.(manager := Listed(business)))
    case LockForSync =>
      if !s.manager.Listed? || s.mutex != Free then None
      else Some(s.(manager := Removing(s.manager.business), mutex := HeldByManager))
    case Remove(z) =>
      if z !in s.streams then None
      else if s.manager.Stopping? || (s.manager.Removing? && z !in s.manager.business) then Some(Cancel(s, z))
      else None
    case RemovedAll =>
      if !s.manager.Removing? || !(s.streams.Keys <= s.manager.business) then None
      else Some(s.(manager := Adding(s.manager.business)))
    case Add(z) =>
      if !s.manager.Adding? || z !in s.manager.business || z in s.streams then None
      else Some(s.(streams := s.streams[z := |s.routines|], waitGroup := s.waitGroup + 1,
                   routines := s.routines + [Routine(z, false, Streaming)]))
    case UnlockAfterSync =>
      if !s.manager.Adding? || !(s.manager.business <= s.streams.Keys) then None
      else Some(s.(manager := Idle, mutex := Free))
    case BeginStop => if s.manager != Idle || !s.parentCancelled then None else Some(s.(manager := WantsStop))
    case LockForStop =>
      if s.manager != WantsStop || s.mutex != Free then None
      else Some(s.(manager := Stopping, mutex := HeldByManager))
    case BeginWait =>
      if s.manager != Stopping || s.streams != map[] then None
      else Some(s.(manager := Waiting, mutex := if releaseFirst then Free else HeldByManager))
    case Return =>
      if s.manager != Waiting || s.waitGroup != 0 then None
      else Some(s.(manager := Returned, mutex := if s.mutex == HeldByManager then Free else s.mutex))
    case StreamEnds(i) =>
      // runZoneStream returns only once its own or the parent context is cancelled.
      if !In(s, i, Streaming) || !(s.routines[i].cancelled || s.parentCancelled) then None
      else Some(WithPhase(s, i, AtLock))
    case RoutineLocks(i) =>
      if !In(s, i, AtLock) || s.mutex != Free then None else Some(WithPhase(s, i, InLock).(mutex := HeldBy(i)))
    case RoutineUnlocks(i) =>
      if !In(s, i, InLock) then None else Some(WithPhase(s, i, Unlocked).(mutex := Free))
    case RoutineDone(i) =>
      if !In(s, i, Unlocked) then None else Some(WithPhase(s, i, Finished).(waitGroup := s.waitGroup - 1))
  }

  predicate Runs(releaseFirst: bool, s: State, es: seq<Event>, t: State)
    decreases |es|
  {
    if es == [] then s == t
    else
      var next := Step(releaseFirst, s, es[0]);
      next.Some? && Runs(releaseFirst, next.value, es[1..], t)
  }

  lemma {:induction false} Join(s: State, es: seq<Event>, m: State, fs: seq<Event>, t: State)
    requires Runs(false, s, es, m) && Runs(false, m, fs, t)
    ensures Runs(false, s, es + fs, t)
    decreases |es|
  {
    hide Step;
    if es == [] {
      assert es + fs == fs;
    } else {
      assert (es + fs)[1..] == es[1..] + fs;
      Join(Step(false, s, es[0]).value, es[1..], m, fs, t);
    }
  }

  lemma RunsNothing(s: State)
    ensures Runs(false, s, [], s)
  {
  }

  lemma Steps(s: State, e: Event, m: State, es: seq<Event>, t: State)
    requires Step(false, s, e) == Some(m) && Runs(false, m, es, t)
    ensures Runs(false, s, [e] + es, t)
  {
    hide Step;
    assert ([e] + es)[1..] == es;
  }

  lemma Append(s: State, es: seq<Event>, m: State, e: Event, t: State)
    requires Runs(false, s, es, m) && Step(false, m, e) == Some(t)
    ensures Runs(false, s, es + [e], t)
  {
    RunsNothing(t);
    Steps(m, e, t, [], t);
    assert [e] + [] == [e];
    Join(s, es, m, [e], t);
  }

  const START := State(false, Idle, Free, map[], [], 0)

  function Live(routines: seq<Routine>): nat {
    if routines == [] then 0
    else Live(routines[..|routines| - 1]) + if routines[|routines| - 1].phase == Finished then 0 else 1
  }

  predicate ManagerLocks(s: State) {
    s.manager.Removing? || s.manager.Adding? || s.manager.Stopping?
  }

  // A goroutine's context is uncancelled exactly while the map holds that goroutine.
  ghost predicate MapOk(s: State) {
    && (forall z :: z in s.streams ==> s.streams[z] < |s.routines| && s.routines[s.streams[z]].zone == z)
    && (forall i :: 0 <= i < |s.routines| ==>
          (!s.routines[i].cancelled <==> s.routines[i].zone in s.streams && s.streams[s.routines[i].zone] == i))
  }

  ghost predicate PhaseOk(s: State) {
    forall i :: 0 <= i < |s.routines| && s.routines[i].phase != Streaming ==> s.routines[i].cancelled || s.parentCancelled
  }

  ghost predicate LockOk(s: State) {
    && (forall i :: 0 <= i < |s.routines| ==> (s.routines[i].phase == InLock <==> s.mutex == HeldBy(i)))
    && (s.mutex.HeldBy? ==> s.mutex.i < |s.routines|)
    && (ManagerLocks(s) ==> s.mutex == HeldByManager)
    && (s.mutex == HeldByManager ==> ManagerLocks(s) || s.manager.Waiting?)
  }

  ghost predicate ModeOk(s: State) {
    && (s.manager.Waiting? ==> s.streams == map[])
    && (s.manager.Adding? ==> s.streams.Keys <= s.manager.business)
    && (s.manager.WantsStop? || s.manager.Stopping? || s.manager.Waiting? ==> s.parentCancelled)
  }

  ghost predicate Inv(s: State) {
    s.waitGroup == Live(s.routines) && MapOk(s) && PhaseOk(s) && LockOk(s) && ModeOk(s)
  }

  lemma {:induction false} LiveUpdate(routines: seq<Routine>, i: nat, r: Routine)
    requires i < |routines|
    ensures Live(routines[i := r]) + (if routines[i].phase == Finished then 0 else 1) ==
            Live(routines) + if r.phase == Finished then 0 else 1
  {
    var n := |routines| - 1;
    if i == n {
      assert routines[i := r][..n] == routines[..n];
    } else {
      assert routines[i := r][..n] == routines[..n][i := r];
      LiveUpdate(routines[..n], i, r);
    }
  }

  lemma LiveAppend(routines: seq<Routine>, r: Routine)
    ensures Live(routines + [r]) == Live(routines) + if r.phase == Finished then 0 else 1
  {
    assert (routines + [r])[..|routines|] == routines;
  }

  lemma CountStep(releaseFirst: bool, s: State, e: Event, t: State)
    requires MapOk(s) && s.waitGroup == Live(s.routines) && Step(releaseFirst, s, e) == Some(t)
    ensures t.waitGroup == Live(t.routines)
  {
    hide Live;
    match e
    case Remove(z) => LiveUpdate(s.routines, s.streams[z], s.routines[s.streams[z]].(cancelled := true));
    case Add(z) => LiveAppend(s.routines, Routine(z, false, Streaming));
    case StreamEnds(i) => LiveUpdate(s.routines, i, t.routines[i]);
    case RoutineLocks(i) => LiveUpdate(s.routines, i, t.routines[i]);
    case RoutineUnlocks(i) => LiveUpdate(s.routines, i, t.routines[i]);
    case RoutineDone(i) => LiveUpdate(s.routines, i, t.routines[i]);
    case _ =>
  }

  lemma MapSame(s: State, t: State)
    requires MapOk(s) && t.streams == s.streams && |t.routines| == |s.routines|
    requires forall i :: 0 <= i < |s.routines| ==>
               t.routines[i].zone == s.routines[i].zone && t.routines[i].cancelled == s.routines[i].cancelled
    ensures MapOk(t)
  {
  }

  lemma MapRemove(s: State, zone: Uuid)
    requires MapOk(s) && zone in s.streams
    ensures MapOk(Cancel(s, zone))
  {
  }

  lemma MapAdd(s: State, zone: Uuid, t: State)
    requires MapOk(s) && zone !in s.streams
    requires t.streams == s.streams[zone := |s.routines|] && t.routines == s.routines + [Routine(zone, false, Streaming)]
    ensures MapOk(t)
  {
  }

  lemma MapStep(releaseFirst: bool, s: State, e: Event, t: State)
    requires MapOk(s) && Step(releaseFirst, s, e) == Some(t)
    ensures MapOk(t)
  {
    hide MapOk;
    match e
    case Remove(z) => MapRemove(s, z);
    case Add(z) => MapAdd(s, z, t);
    case _ => MapSame(s, t);
  }

  lemma PhaseStep(releaseFirst: bool, s: State, e: Event, t: State)
    requires PhaseOk(s) && MapOk(s) && Step(releaseFirst, s, e) == Some(t)
    ensures PhaseOk(t)
  {
  }

  lemma LockStep(releaseFirst: bool, s: State, e: Event, t: State)
    requires LockOk(s) && Step(releaseFirst, s, e) == Some(t)
    ensures LockOk(t)
  {
  }

  lemma ModeStep(releaseFirst: bool, s: State, e: Event, t: State)
    requires ModeOk(s) && Step(releaseFirst, s, e) == Some(t)
    ensures ModeOk(t)
  {
  }

  lemma StepKeeps(releaseFirst: bool, s: State, e: Event, t: State)
    requires Inv(s) && Step(releaseFirst, s, e) == Some(t)
    ensures Inv(t)
  {
    hide Step, MapOk, PhaseOk, LockOk, ModeOk;
    CountStep(releaseFirst, s, e, t);
    MapStep(releaseFirst, s, e, t);
    PhaseStep(releaseFirst, s, e, t);
    LockStep(releaseFirst, s, e, t);
    ModeStep(releaseFirst, s, e, t);
  }

  lemma {:induction false} RunKeeps(releaseFirst: bool, s: State, es: seq<Event>, t: State)
    requires Inv(s) && Runs(releaseFirst, s, es, t)
    ensures Inv(t)
    decreases |es|
  {
    hide Inv, Step;
    if es != [] {
      StepKeeps(releaseFirst, s, es[0], Step(releaseFirst, s, es[0]).value);
      RunKeeps(releaseFirst, Step(releaseFirst, s, es[0]).value, es[1..], t);
    }
  }

  lemma StartInv()
    ensures Inv(START)
  {
  }

  /** In every reachable state the WaitGroup counts the goroutines that are not finished,
      every map entry has its own goroutine with an uncancelled context, which streams as
      long as the parent context lives, and no zone has two uncancelled goroutines. */
  lemma StreamsAreTracked(es: seq<Event>, t: State)
    requires Runs(false, START, es, t)
    ensures t.waitGroup == Live(t.routines)
    ensures forall z :: z in t.streams ==>
              && t.streams[z] < |t.routines| && t.routines[t.streams[z]].zone == z && !t.routines[t.streams[z]].cancelled
              && (!t.parentCancelled ==> t.routines[t.streams[z]].phase == Streaming)
    ensures forall i, j :: 0 <= i < j < |t.routines| && t.routines[i].zone == t.routines[j].zone ==>
              t.routines[i].cancelled || t.routines[j].cancelled
  {
    RunKeeps(false, START, es, t);
  }

  /** A sync that completes leaves exactly the active Business zones in the map. */
  lemma SyncIsExact(es: seq<Event>, m: State, t: State)
    requires Runs(false, START, es, m) && Step(false, m, UnlockAfterSync) == Some(t)
    ensures t.streams.Keys == m.manager.business
  {
    RunKeeps(false, START, es, m);
  }

  /** A goroutine whose own or parent context is cancelled can end as soon as the mutex is
      free, and then counts no more; while neither is cancelled it goes on streaming. */
  lemma StreamEndsExactlyWhen(s: State, i: nat) returns (es: seq<Event>, t: State)
    requires In(s, i, Streaming) && s.mutex == Free
    ensures Step(false, s, StreamEnds(i)).Some? <==> s.routines[i].cancelled || s.parentCancelled
    ensures s.routines[i].cancelled || s.parentCancelled ==>
              && Runs(false, s, es, t) && t.mutex == Free && t.waitGroup == s.waitGroup - 1
              && t.routines == s.routines[i := s.routines[i].(phase := Finished)]
  {
    es, t := [], s;
    if s.routines[i].cancelled || s.parentCancelled {
      var a := Step(false, s, StreamEnds(i)).value;
      var b := Step(false, a, RoutineLocks(i)).value;
      var c := Step(false, b, RoutineUnlocks(i)).value;
      t := Step(false, c, RoutineDone(i)).value;
      RunsNothing(t);
      Steps(c, RoutineDone(i), t, [], t);
      Steps(b, RoutineUnlocks(i), c, [RoutineDone(i)] + [], t);
      Steps(a, RoutineLocks(i), b, [RoutineUnlocks(i)] + ([RoutineDone(i)] + []), t);
      es := [StreamEnds(i)] + ([RoutineLocks(i)] + ([RoutineUnlocks(i)] + ([RoutineDone(i)] + [])));
      Steps(s, StreamEnds(i), a, [RoutineLocks(i)] + ([RoutineUnlocks(i)] + ([RoutineDone(i)] + [])), t);
    }
  }

  // ── Shutdown ───────────────────────────────────────────────────────────────────────

  // The goroutine has left the locked section that precedes Done.
  predicate PastLock(r: Routine) {
    r.phase == Unlocked || r.phase == Finished
  }

  // stopAll owns the mutex, and goroutine i still needs it.
  predicate Stuck(s: State, i: nat) {
    && i < |s.routines| && (s.routines[i].phase == Streaming || s.routines[i].phase == AtLock)
    && s.mutex == HeldByManager && (s.manager.Stopping? || s.manager.Waiting?)
  }

  lemma LiveAtLeastOne(routines: seq<Routine>, i: nat)
    requires i < |routines| && routines[i].phase != Finished
    ensures Live(routines) >= 1
  {
    LiveUpdate(routines, i, routines[i].(phase := Finished));
  }

  lemma StuckStep(s: State, e: Event, t: State, i: nat)
    requires s.waitGroup == Live(s.routines) && LockOk(s) && Stuck(s, i) && Step(false, s, e) == Some(t)
    ensures Stuck(t, i)
  {
    hide Live;
    LiveAtLeastOne(s.routines, i);
  }

  lemma {:induction false} StuckForever(s: State, es: seq<Event>, t: State, i: nat)
    requires Inv(s) && Stuck(s, i) && Runs(false, s, es, t)
    ensures Stuck(t, i)
    decreases |es|
  {
    hide Step, Stuck, MapOk, PhaseOk, LockOk, ModeOk;
    if es != [] {
      var next := Step(false, s, es[0]).value;
      StepKeeps(false, s, es[0], next);
      StuckStep(s, es[0], next, i);
      StuckForever(next, es[1..], t, i);
    }
  }

  predicate Returns(s: State, es: seq<Event>, t: State) {
    Runs(false, s, es, t) && t.manager == Returned
  }

  lemma Prepend(s: State, e: Event, m: State, es: seq<Event>, t: State)
    requires Step(false, s, e) == Some(m) && Returns(m, es, t)
    ensures Returns(s, [e] + es, t)
  {
    Steps(s, e, m, es, t);
  }

  lemma {:induction false} AllFinished(routines: seq<Routine>)
    requires forall i :: 0 <= i < |routines| ==> routines[i].phase == Finished
    ensures Live(routines) == 0
  {
    if routines != [] {
      AllFinished(routines[..|routines| - 1]);
    }
  }

  // With every goroutine past its lock, the rest of the shutdown goes through.
  lemma {:induction false} ShutdownFinishes(s: State) returns (es: seq<Event>, t: State)
    requires Inv(s) && s.manager.Waiting? && forall i :: 0 <= i < |s.routines| ==> PastLock(s.routines[i])
    ensures Returns(s, es, t)
    decreases Live(s.routines)
  {
    if exists i :: 0 <= i < |s.routines| && s.routines[i].phase == Unlocked {
      var i :| 0 <= i < |s.routines| && s.routines[i].phase == Unlocked;
      var m := Step(false, s, RoutineDone(i)).value;
      StepKeeps(false, s, RoutineDone(i), m);
      LiveUpdate(s.routines, i, m.routines[i]);
      var rest;
      rest, t := ShutdownFinishes(m);
      Prepend(s, RoutineDone(i), m, rest, t);
      es := [RoutineDone(i)] + rest;
    } else {
      AllFinished(s.routines);
      t := Step(false, s, Return).value;
      assert Returns(t, [], t);
      Prepend(s, Return, t, [], t);
      es := [Return] + [];
    }
  }

  lemma {:induction false} ShutdownClears(s: State) returns (es: seq<Event>, t: State)
    requires Inv(s) && s.manager.Stopping? && forall i :: 0 <= i < |s.routines| ==> PastLock(s.routines[i])
    ensures Returns(s, es, t)
    decreases |s.streams.Keys|
  {
    hide Inv;
    var rest;
    if s.streams == map[] {
      var m := Step(false, s, BeginWait).value;
      StepKeeps(false, s, BeginWait, m);
      rest, t := ShutdownFinishes(m);
      Prepend(s, BeginWait, m, rest, t);
      es := [BeginWait] + rest;
    } else {
      var z :| z in s.streams;
      var m := Step(false, s, Remove(z)).value;
      StepKeeps(false, s, Remove(z), m);
      assert s.streams.Keys == m.streams.Keys + {z};
      rest, t := ShutdownClears(m);
      Prepend(s, Remove(z), m, rest, t);
      es := [Remove(z)] + rest;
    }
  }

  /** stopAll waits for the goroutines while holding the mutex that each of them takes
      before Done. From the moment it takes the mutex it can return exactly when every
      goroutine had already left its last locked section; otherwise it never does. */
  lemma StopAllReturnsExactlyWhen(es: seq<Event>, m: State, s: State)
    requires Runs(false, START, es, m) && Step(false, m, LockForStop) == Some(s)
    ensures (exists fs, t :: Returns(s, fs, t)) <==> forall i :: 0 <= i < |s.routines| ==> PastLock(s.routines[i])
  {
    RunKeeps(false, START, es, m);
    StepKeeps(false, m, LockForStop, s);
    if forall i :: 0 <= i < |s.routines| ==> PastLock(s.routines[i]) {
      var fs, t := ShutdownClears(s);
      assert Returns(s, fs, t);
    } else {
      var i :| 0 <= i < |s.routines| && !PastLock(s.routines[i]);
      forall fs, t | Returns(s, fs, t) ensures false {
        StuckForever(s, fs, t, i);
      }
    }
  }

  // The manager's state once one zone streams.
  function Streams(zone: Uuid): State {
    State(false, Idle, Free, map[zone := 0], [Routine(zone, false, Streaming)], 1)
  }

  lemma FirstSync(zone: Uuid) returns (es: seq<Event>)
    ensures Runs(false, START, es, Streams(zone))
  {
    var business, s := {zone}, Streams(zone);
    var listed := START.(manager := Listed(business));
    var removing := listed.(manager := Removing(business), mutex := HeldByManager);
    var adding := removing.(manager := Adding(business));
    var added := s.(manager := Adding(business), mutex := HeldByManager);
    assert Step(false, adding, Add(zone)) == Some(added) by {
      assert adding.streams[zone := 0] == map[zone := 0] && adding.routines + [Routine(zone, false, Streaming)] == s.routines;
    }
    RunsNothing(s);
    Steps(added, UnlockAfterSync, s, [], s);
    Steps(adding, Add(zone), added, [UnlockAfterSync] + [], s);
    Steps(removing, RemovedAll, adding, [Add(zone)] + ([UnlockAfterSync] + []), s);
    es := [RemovedAll] + ([Add(zone)] + ([UnlockAfterSync] + []));
    Steps(listed, LockForSync, removing, es, s);
    es := [LockForSync] + es;
    Steps(START, List(business), listed, es, s);
    es := [List(business)] + es;
  }

  lemma Shutdown(s: State) returns (es: seq<Event>, t: State)
    requires s.manager == Idle && s.mutex == Free && !s.parentCancelled
    ensures Runs(false, s, es, t) && t == s.(parentCancelled := true, manager := Stopping, mutex := HeldByManager)
  {
    var cancelled := s.(parentCancelled := true);
    var wants := cancelled.(manager := WantsStop);
    t := wants.(manager := Stopping, mutex := HeldByManager);
    RunsNothing(t);
    Steps(wants, LockForStop, t, [], t);
    Steps(cancelled, BeginStop, wants, [LockForStop] + [], t);
    es := [BeginStop] + ([LockForStop] + []);
    Steps(s, CancelParent, cancelled, es, t);
    es := [CancelParent] + es;
  }

  lemma HangsFrom(es: seq<Event>, s: State)
    requires Runs(false, START, es, s) && Stuck(s, 0)
    ensures forall fs, t :: Runs(false, s, fs, t) ==> t.manager != Returned
  {
    StartInv();
    RunKeeps(false, START, es, s);
    forall fs, t | Runs(false, s, fs, t) ensures t.manager != Returned {
      StuckForever(s, fs, t, 0);
    }
  }

  /** One Business zone and a shutdown while its stream is connected are enough: the wait
      that such a run enters never ends. */
  lemma ShutdownHangs(zone: Uuid) returns (es: seq<Event>, s: State)
    ensures Runs(false, START, es, s) && s.mutex == HeldByManager && s.manager == Stopping
    ensures forall fs, t :: Runs(false, s, fs, t) ==> t.manager != Returned
  {
    hide Step, Runs;
    var sync := FirstSync(zone);
    var stop;
    stop, s := Shutdown(Streams(zone));
    Join(START, sync, Streams(zone), stop, s);
    es := sync + stop;
    HangsFrom(es, s);
  }

  // ── Waiting without the mutex ──────────────────────────────────────────────────────

  function Remaining(r: Routine): nat {
    match r.phase
    case Streaming => 4
    case AtLock => 3
    case InLock => 2
    case Unlocked => 1
    case Finished => 0
  }

  function Measure(routines: seq<Routine>): nat {
    if routines == [] then 0 else Measure(routines[..|routines| - 1]) + Remaining(routines[|routines| - 1])
  }

  lemma {:induction false} MeasureUpdate(routines: seq<Routine>, i: nat, r: Routine)
    requires i < |routines|
    ensures Measure(routines[i := r]) + Remaining(routines[i]) == Measure(routines) + Remaining(r)
  {
    var n := |routines| - 1;
    if i == n {
      assert routines[i := r][..n] == routines[..n];
    } else {
      assert routines[i := r][..n] == routines[..n][i := r];
      MeasureUpdate(routines[..n], i, r);
    }
  }

  predicate UnlockedWait(s: State) {
    s.parentCancelled && s.manager.Waiting? && s.mutex != HeldByManager
  }

  // While stopAll waits without the mutex, only goroutines move, and each move counts down.
  lemma WaitStep(s: State, e: Event, t: State)
    requires Inv(s) && UnlockedWait(s) && Step(true, s, e) == Some(t)
    ensures t.manager == Returned || (UnlockedWait(t) && Measure(t.routines) < Measure(s.routines))
  {
    match e
    case StreamEnds(i) => MeasureUpdate(s.routines, i, t.routines[i]);
    case RoutineLocks(i) => MeasureUpdate(s.routines, i, t.routines[i]);
    case RoutineUnlocks(i) => MeasureUpdate(s.routines, i, t.routines[i]);
    case RoutineDone(i) => MeasureUpdate(s.routines, i, t.routines[i]);
    case _ =>
  }

  lemma {:induction false} SomeLive(routines: seq<Routine>) returns (i: nat)
    requires Live(routines) != 0
    ensures i < |routines| && routines[i].phase != Finished
  {
    if routines[|routines| - 1].phase != Finished {
      i := |routines| - 1;
    } else {
      i := SomeLive(routines[..|routines| - 1]);
    }
  }

  // Something can always move: a goroutine, or stopAll itself when none is left.
  lemma WaitMoves(s: State) returns (e: Event)
    requires Inv(s) && UnlockedWait(s)
    ensures Step(true, s, e).Some?
  {
    if s.waitGroup == 0 {
      e := Return;
    } else if s.mutex.HeldBy? {
      e := RoutineUnlocks(s.mutex.i);
    } else {
      var i := SomeLive(s.routines);
      match s.routines[i].phase
      case Streaming => e := StreamEnds(i);
      case AtLock => e := RoutineLocks(i);
      case InLock => e := RoutineUnlocks(i);
      case Unlocked => e := RoutineDone(i);
    }
  }

  lemma {:induction false} ReturnedStays(s: State, es: seq<Event>, t: State)
    requires s.manager == Returned && Runs(true, s, es, t)
    ensures t.manager == Returned
    decreases |es|
  {
    if es != [] {
      ReturnedStays(Step(true, s, es[0]).value, es[1..], t);
    }
  }

  lemma {:induction false} UnlockedWaitTerminates(s: State, es: seq<Event>, t: State)
    requires Inv(s) && UnlockedWait(s) && Runs(true, s, es, t)
    ensures t.manager == Returned || (|es| <= Measure(s.routines) && exists e :: Step(true, t, e).Some?)
    decreases |es|
  {
    hide Inv, Step, UnlockedWait, Measure;
    if es == [] {
      var e := WaitMoves(s);
      assert Step(true, t, e).Some?;
    } else {
      var next := Step(true, s, es[0]).value;
      StepKeeps(true, s, es[0], next);
      WaitStep(s, es[0], next);
      if next.manager == Returned {
        ReturnedStays(next, es[1..], t);
      } else {
        UnlockedWaitTerminates(next, es[1..], t);
      }
    }
  }

  lemma WaitUnlocked(m: State, s: State)
    requires Inv(m) && Step(true, m, BeginWait) == Some(s)
    ensures UnlockedWait(s)
  {
    hide Live, MapOk, PhaseOk, LockOk;
  }

  /** If stopAll unlocked before waiting, every run from there would return within a number
      of steps fixed by the goroutines' positions: no run gets stuck or goes on without end. */
  lemma UnlockFirstReturns(es: seq<Event>, m: State, s: State, fs: seq<Event>, t: State)
    requires Runs(true, START, es, m) && Step(true, m, BeginWait) == Some(s) && Runs(true, s, fs, t)
    ensures t.manager == Returned || (|fs| <= Measure(s.routines) && exists e :: Step(true, t, e).Some?)
  {
    hide Inv, Runs, Step, Measure, UnlockedWait;
    StartInv();
    RunKeeps(true, START, es, m);
    StepKeeps(true, m, BeginWait, s);
    WaitUnlocked(m, s);
    UnlockedWaitTerminates(s, fs, t);
  }

  // ── The manager's own code ─────────────────────────────────────────────────────────

  // The steps of a sync that move the manager alone.
  lemma SyncSteps(s: State, business: set<Uuid>)
    ensures s.manager == Idle ==> Step(false, s, List(business)) == Some(s.(manager := Listed(business)))
    ensures s.manager == Listed(business) && s.mutex == Free ==>
              Step(false, s, LockForSync) == Some(s.(manager := Removing(business), mutex := HeldByManager))
    ensures s.manager == Removing(business) && s.streams.Keys <= business ==>
              Step(false, s, RemovedAll) == Some(s.(manager := Adding(business)))
    ensures s.manager == Adding(business) && business <= s.streams.Keys ==>
              Step(false, s, UnlockAfterSync) == Some(s.(manager := Idle, mutex := Free))
  {
  }

  lemma StopSteps(s: State)
    ensures s.manager == WantsStop && s.mutex == Free ==>
              Step(false, s, LockForStop) == Some(s.(manager := Stopping, mutex := HeldByManager))
    ensures s.manager == Stopping && s.streams == map[] ==>
              Step(false, s, BeginWait) == Some(s.(manager := Waiting, mutex := HeldByManager))
    ensures s.manager == Waiting && s.waitGroup == 0 && s.mutex == HeldByManager ==>
              Step(false, s, Return) == Some(s.(manager := Returned, mutex := Free))
  {
  }

  predicate SamePhases(a: seq<Routine>, b: seq<Routine>) {
    |a| == |b| && forall i :: 0 <= i < |a| ==> a[i].phase == b[i].phase
  }

  lemma AddingSubset(s: State)
    requires Inv(s) && s.manager.Adding?
    ensures s.streams.Keys <= s.manager.business
  {
    hide Live, MapOk, PhaseOk, LockOk;
  }

  class InstantLogsManager {
    var parentCancelled: bool
    var manager: Manager
    var mutex: Mutex
    var streams: map<Uuid, nat>
    var routines: seq<Routine>
    var waitGroup: int

    function View(): State
      reads this
    {
      State(parentCancelled, manager, mutex, streams, routines, waitGroup)
    }

    constructor ()
      ensures View() == START
    {
      parentCancelled, manager, mutex, streams, routines, waitGroup := false, Idle, Free, map[], [], 0;
    }

    method CancelStream(zone: Uuid)
      requires zone in streams && streams[zone] < |routines|
      modifies this
      ensures View() == Cancel(old(View()), zone)
    {
      var i := streams[zone];
      routines := routines[i := routines[i].(cancelled := true)];
      streams := streams - {zone};
    }

    lemma Entry(zone: Uuid)
      requires Inv(View()) && zone in streams
      ensures streams[zone] < |routines|
    {
      hide Live, PhaseOk, LockOk, ModeOk;
    }

    lemma EmptyMap()
      requires Inv(View()) && streams == map[]
      ensures forall i :: 0 <= i < |routines| ==> routines[i].cancelled
    {
      hide Live, PhaseOk, LockOk, ModeOk;
    }

    // Records that the state reached is one protocol step after the state at.
    ghost method Extend(start: State, at: State, es: seq<Event>, e: Event) returns (fs: seq<Event>)
      requires Inv(at) && Runs(false, start, es, at) && Step(false, at, e) == Some(View())
      ensures Inv(View()) && Runs(false, start, fs, View())
    {
      hide Step, Inv;
      StepKeeps(false, at, e, View());
      Append(start, es, at, e, View());
      fs := es + [e];
    }

    predicate Keeps(before: map<Uuid, nat>, business: set<Uuid>)
      reads this
    {
      forall z :: z in business && z in before ==> z in streams && streams[z] == before[z]
    }

    // First loop: streams of zones that are gone or downgraded.
    method RemoveStale(business: set<Uuid>, ghost start: State, ghost before: seq<Event>) returns (ghost es: seq<Event>)
      requires Inv(View()) && manager == Removing(business) && Runs(false, start, before, View())
      modifies this
      ensures Inv(View()) && manager == Removing(business) && mutex == old(mutex) && Runs(false, start, es, View())
      ensures streams.Keys <= business && Keeps(old(streams), business)
    {
      hide Inv, Runs;
      es := before;
      while exists z :: z in streams && z !in business
        invariant Inv(View()) && manager == Removing(business) && mutex == old(mutex) && Runs(false, start, es, View())
        invariant Keeps(old(streams), business)
        decreases streams.Keys
      {
        var z :| z in streams && z !in business;
        ghost var at := View();
        Entry(z);
        CancelStream(z);
        es := Extend(start, at, es, Remove(z));
      }
    }

    // Second loop: streams of Business zones that have none.
    method StartMissing(business: set<Uuid>, ghost start: State, ghost before: seq<Event>) returns (ghost es: seq<Event>)
      requires Inv(View()) && manager == Adding(business) && Runs(false, start, before, View())
      modifies this
      ensures Inv(View()) && manager == Adding(business) && mutex == old(mutex) && Runs(false, start, es, View())
      ensures business <= streams.Keys && Keeps(old(streams), business)
    {
      hide Inv, Runs;
      es := before;
      while exists z :: z in business && z !in streams
        invariant Inv(View()) && manager == Adding(business) && mutex == old(mutex) && Runs(false, start, es, View())
        invariant Keeps(old(streams), business)
        decreases business - streams.Keys
      {
        var z :| z in business && z !in streams;
        ghost var at := View();
        streams := streams[z := |routines|];
        waitGroup := waitGroup + 1;
        routines := routines + [Routine(z, false, Streaming)];
        es := Extend(start, at, es, Add(z));
        assert z in business - at.streams.Keys && z !in business - streams.Keys;
      }
    }

    // A move of the manager alone: its position and the mutex.
    method MoveTo(position: Manager, lock: Mutex, e: Event, ghost start: State, ghost before: seq<Event>)
      returns (ghost es: seq<Event>)
      requires Inv(View()) && Runs(false, start, before, View())
      requires Step(false, View(), e) == Some(View().(manager := position, mutex := lock))
      modifies this
      ensures Inv(View()) && Runs(false, start, es, View())
      ensures View() == old(View()).(manager := position, mutex := lock)
    {
      hide Inv, Runs, Step;
      ghost var at := View();
      manager, mutex := position, lock;
      es := Extend(start, at, before, e);
    }

    // From the listing to the first loop, under the mutex.
    method BeginSync(business: set<Uuid>) returns (ghost es: seq<Event>)
      requires Inv(View()) && manager == Idle && mutex == Free
      modifies this
      ensures Inv(View()) && Runs(false, old(View()), es, View())
      ensures View() == old(View()).(manager := Removing(business), mutex := HeldByManager)
    {
      hide Inv, Runs, Step;
      ghost var start := View();
      RunsNothing(start);
      SyncSteps(View(), business);
      es := MoveTo(Listed(business), Free, List(business), start, []);
      SyncSteps(View(), business);
      es := MoveTo(Removing(business), HeldByManager, LockForSync, start, es);
    }

    /** A sync in which the mutex is free: an execution of the protocol that ends with the
        Business zones in the map and leaves their running streams alone. A failed listing
        changes nothing. */
    method SyncStreams(zones: Option<set<Uuid>>) returns (ghost es: seq<Event>)
      requires Inv(View()) && manager == Idle && mutex == Free
      modifies this
      ensures Inv(View()) && Runs(false, old(View()), es, View())
      ensures zones.None? ==> View() == old(View())
      ensures zones.Some? ==> streams.Keys == zones.value && manager == Idle && mutex == Free
      ensures zones.Some? ==> Keeps(old(streams), zones.value)
    {
      hide Inv, Runs, Step;
      ghost var start := View();
      if zones.None? {
        RunsNothing(start);
        return [];
      }
      var business := zones.value;
      es := BeginSync(business);
      es := RemoveStale(business, start, es);
      SyncSteps(View(), business);
      es := MoveTo(Adding(business), mutex, RemovedAll, start, es);
      es := StartMissing(business, start, es);
      AddingSubset(View());
      SyncSteps(View(), business);
      es := MoveTo(Idle, Free, UnlockAfterSync, start, es);
    }

    // Cancels every stream, under the mutex.
    method CancelAll(ghost start: State, ghost before: seq<Event>) returns (ghost es: seq<Event>)
      requires Inv(View()) && Runs(false, start, before, View()) && manager == Stopping
      modifies this
      ensures Inv(View()) && Runs(false, start, es, View()) && manager == Stopping && mutex == old(mutex)
      ensures streams == map[] && SamePhases(routines, old(routines))
    {
      hide Inv, Runs;
      es := before;
      while streams != map[]
        invariant Inv(View()) && Runs(false, start, es, View()) && manager == Stopping && mutex == old(mutex)
        invariant SamePhases(routines, old(routines))
        decreases streams.Keys
      {
        var z :| z in streams;
        ghost var at := View();
        Entry(z);
        CancelStream(z);
        es := Extend(start, at, es, Remove(z));
      }
    }

    // wg.Wait() with the mutex held: goroutines that are past it may still finish.
    method Wait(ghost start: State, ghost before: seq<Event>) returns (ghost es: seq<Event>)
      requires Inv(View()) && Runs(false, start, before, View()) && manager == Waiting && mutex == HeldByManager
      modifies this
      ensures Inv(View()) && Runs(false, start, es, View()) && manager == Waiting && mutex == HeldByManager
      ensures streams == old(streams) && |routines| == |old(routines)|
      ensures forall i :: 0 <= i < |routines| ==> routines[i].cancelled == old(routines[i]).cancelled
      ensures forall i :: 0 <= i < |routines| ==> PastLock(routines[i]) == PastLock(old(routines[i]))
      ensures forall i :: 0 <= i < |routines| ==> routines[i].phase != Unlocked
    {
      hide Inv, Runs, Measure;
      es := before;
      while exists i :: 0 <= i < |routines| && routines[i].phase == Unlocked
        invariant Inv(View()) && Runs(false, start, es, View()) && manager == Waiting && mutex == HeldByManager
        invariant streams == old(streams) && |routines| == |old(routines)|
        invariant forall i :: 0 <= i < |routines| ==> routines[i].cancelled == old(routines[i]).cancelled
        invariant forall i :: 0 <= i < |routines| ==> PastLock(routines[i]) == PastLock(old(routines[i]))
        decreases Measure(routines)
      {
        var i :| 0 <= i < |routines| && routines[i].phase == Unlocked;
        ghost var at := View();
        MeasureUpdate(routines, i, routines[i].(phase := Finished));
        routines := routines[i := routines[i].(phase := Finished)];
        waitGroup := waitGroup - 1;
        es := Extend(start, at, es, RoutineDone(i));
      }
    }

    lemma NoneLeft()
      requires Inv(View()) && forall i :: 0 <= i < |routines| ==> routines[i].phase != Unlocked
      ensures waitGroup == 0 <==> forall i :: 0 <= i < |routines| ==> PastLock(routines[i])
    {
      hide MapOk, PhaseOk, LockOk, ModeOk;
      if forall i :: 0 <= i < |routines| ==> PastLock(routines[i]) {
        AllFinished(routines);
      } else {
        var i :| 0 <= i < |routines| && !PastLock(routines[i]);
        LiveAtLeastOne(routines, i);
      }
    }

    /** stopAll from the free mutex on: every stream is cancelled, the map is empty, and the
        goroutines that are past their last locked section finish. It returns exactly when
        these were all; otherwise it waits for ever with the mutex in its hands. */
    method StopAll() returns (returned: bool, ghost es: seq<Event>)
      requires Inv(View()) && manager == WantsStop && mutex == Free
      modifies this
      ensures Inv(View()) && Runs(false, old(View()), es, View())
      ensures streams == map[] && forall i :: 0 <= i < |routines| ==> routines[i].cancelled
      ensures returned <==> forall i :: 0 <= i < |old(routines)| ==> PastLock(old(routines[i]))
      ensures if returned then manager == Returned && mutex == Free else manager == Waiting && mutex == HeldByManager
    {
      hide Inv, Runs, Step;
      ghost var start := View();
      RunsNothing(start);
      StopSteps(View());
      es := MoveTo(Stopping, HeldByManager, LockForStop, start, []);
      es := CancelAll(start, es);
      StopSteps(View());
      es := MoveTo(Waiting, HeldByManager, BeginWait, start, es);
      EmptyMap();
      es := Wait(start, es);
      NoneLeft();
      returned := waitGroup == 0;
      if returned {
        StopSteps(View());
        es := MoveTo(Returned, Free, Return, start, es);
      }
    }
  }
}

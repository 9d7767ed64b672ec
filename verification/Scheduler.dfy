/** The zone scheduler: due zones are listed, one window per zone is enqueued under a task
    id, and only then does the zone's watermark move. Any number of schedulers run at
    once; each may die, and each call may fail or lose its reply. */
module Scheduler {
  import opened Base

  const MIN_INTERVAL := 300
  const MAX_INTERVAL := 518_400

  // Nanoseconds since the Unix epoch, as each process reads its own clock.
  type Instant = int

  datatype Plan = Enterprise | Business | FreePro | Other

  datatype ZoneRow = ZoneRow(plan: Plan, interval: int, active: bool, deleted: bool, watermark: Option<Instant>)

  datatype TaskId = TaskId(prefix: string, zone: Uuid, second: int)

  datatype Origin = First | Resumed | Triggered

  datatype Window = Window(zone: Uuid, start: Instant, end: Instant, origin: Origin)

  // The tables and the queue. The windows ever enqueued are history.
  datatype Db = Db(zones: map<Uuid, ZoneRow>, queue: set<TaskId>, enqueued: seq<Window>)

  datatype Snapshot = Snapshot(zone: Uuid, row: ZoneRow)

  // ListDue: active zones that were never pulled or whose watermark is older than the interval.
  predicate Due(r: ZoneRow, dbNow: Instant) {
    r.active && !r.deleted && (r.watermark.None? || r.watermark.value < dbNow - r.interval * SECOND)
  }

  function WindowOf(s: Snapshot, now: Instant): Window {
    match s.row.watermark
    case None => Window(s.zone, now - s.row.interval * SECOND, now, First)
    case Some(w) => Window(s.zone, w, now, Resumed)
  }

  function IdOf(s: Snapshot, now: Instant): TaskId {
    TaskId(if s.row.plan == FreePro then "sec" else "pull", s.zone, WindowOf(s, now).start / SECOND)
  }

  // Business zones are left to the stream daemon; an id that is still queued is a conflict.
  predicate Skipped(db: Db, s: Snapshot, now: Instant) {
    s.row.plan == Business || IdOf(s, now) in db.queue
  }

  function Enqueue(db: Db, s: Snapshot, now: Instant, call: Outcome): Db {
    if Skipped(db, s, now) || call == Failure then db
    else db.(queue := db.queue + {IdOf(s, now)}, enqueued := db.enqueued + [WindowOf(s, now)])
  }

  // The scheduler goes on to the watermark only when the enqueue was confirmed.
  predicate Confirmed(db: Db, s: Snapshot, now: Instant, call: Outcome) {
    !Skipped(db, s, now) && call == Success
  }

  function Advance(db: Db, zone: Uuid, now: Instant, call: Outcome): Db {
    if call == Failure || zone !in db.zones then db
    else db.(zones := db.zones[zone := db.zones[zone].(watermark := Some(now))])
  }

  // ── Any number of schedulers ───────────────────────────────────────────────────────

  // Where one scheduler stands: the due zones it still has to visit, and the watermark
  // that it has yet to write for the window it has just enqueued.
  datatype Visit = Visit(todo: seq<Snapshot>, unwritten: Option<(Uuid, Instant)>)

  datatype World = World(db: Db, visits: seq<Visit>)

  datatype Event =
    | AddZone(zone: Uuid, plan: Plan, interval: int)
    | UpdateZone(zone: Uuid, plan: Plan, interval: int, active: bool)
    | DeleteZone(zone: Uuid)
    | Trigger(zone: Uuid, now: Instant, call: Outcome)
    | TaskGone(id: TaskId)
    | List(dbNow: Instant, order: seq<Uuid>)
    | Visiting(k: nat, now: Instant, call: Outcome)
    | Writing(k: nat, call: Outcome)
    | Crash(k: nat)

  predicate IsDueList(db: Db, dbNow: Instant, order: seq<Uuid>) {
    && (forall z :: z in order ==> z in db.zones && Due(db.zones[z], dbNow))
    && (forall z :: z in db.zones && Due(db.zones[z], dbNow) ==> z in order)
    && (forall i, j :: 0 <= i < j < |order| ==> order[i] != order[j])
  }

  function Snapshots(db: Db, order: seq<Uuid>): seq<Snapshot>
    requires forall z :: z in order ==> z in db.zones
  {
    seq(|order|, i requires 0 <= i < |order| => Snapshot(order[i], db.zones[order[i]]))
  }

  function Step(w: World, e: Event): Option<World> {
    var db := w.db;
    match e
    case AddZone(z, plan, interval) =>
      if z in db.zones || interval < MIN_INTERVAL || interval > MAX_INTERVAL then None
      else Some(w.(db := db.(zones := db.zones[z := ZoneRow(plan, interval, true, false, None)])))
    case UpdateZone(z, plan, interval, active) =>
      if z !in db.zones || db.zones[z].deleted || interval < MIN_INTERVAL || interval > MAX_INTERVAL then None
      else Some(w.(db := db.(zones := db.zones[z := db.zones[z].(plan := plan, interval := interval, active := active)])))
    case DeleteZone(z) =>
      if z !in db.zones then None else Some(w.(db := db.(zones := db.zones[z := db.zones[z].(deleted := true)])))
    case Trigger(z, now, call) =>
      // A manual pull has a random task id and never moves the watermark.
      if z !in db.zones || db.zones[z].deleted then None
      else if call == Failure then Some(w)
      else Some(w.(db := db.(enqueued := db.enqueued + [WindowOf(Snapshot(z, db.zones[z]), now).(origin := Triggered)])))
    case TaskGone(id) => Some(w.(db := db.(queue := db.queue - {id})))
    case List(dbNow, order) =>
      if !IsDueList(db, dbNow, order) then None
      else Some(w.(visits := w.visits + [Visit(Snapshots(db, order), None)]))
    case Visiting(k, now, call) =>
      if k >= |w.visits| || w.visits[k].todo == [] || w.visits[k].unwritten.Some? then None
      else
        var s, rest := w.visits[k].todo[0], w.visits[k].todo[1..];
        var unwritten := if Confirmed(db, s, now, call) then Some((s.zone, now)) else None;
        Some(World(Enqueue(db, s, now, call), w.visits[k := Visit(rest, unwritten)]))
    case Writing(k, call) =>
      if k >= |w.visits| || w.visits[k].unwritten.None? then None
      else
        var (z, now) := w.visits[k].unwritten.value;
        Some(World(Advance(db, z, now, call), w.visits[k := w.visits[k].(unwritten := None)]))
    case Crash(k) =>
      if k >= |w.visits| then None else Some(w.(visits := w.visits[k := Visit([], None)]))
  }

  predicate Runs(w: World, es: seq<Event>, t: World)
    decreases |es|
  {
    if es == [] then w == t
    else
      var next := Step(w, es[0]);
      next.Some? && Runs(next.value, es[1..], t)
  }

  // No zone has been pulled and no scheduler is under way.
  predicate Initial(w: World) {
    w.visits == [] && forall z :: z in w.db.zones ==> w.db.zones[z].watermark.None?
  }

  // ── Coverage ───────────────────────────────────────────────────────────────────────

  // Enqueued windows of the zone, each beginning where the one before it ended, from a
  // first window on.
  predicate IsChain(enqueued: seq<Window>, zone: Uuid, c: seq<Window>) {
    && c != [] && c[0].origin == First
    && (forall i :: 0 <= i < |c| ==> c[i] in enqueued && c[i].zone == zone)
    && (forall i :: 1 <= i < |c| ==> c[i].start == c[i - 1].end)
  }

  ghost predicate Reached(enqueued: seq<Window>, zone: Uuid, v: Instant) {
    exists c: seq<Window> :: IsChain(enqueued, zone, c) && c[|c| - 1].end == v
  }

  lemma ReachedStays(a: seq<Window>, b: seq<Window>, zone: Uuid, v: Instant)
    requires Reached(a, zone, v) && a <= b
    ensures Reached(b, zone, v)
  {
    var c: seq<Window> :| IsChain(a, zone, c) && c[|c| - 1].end == v;
    assert IsChain(b, zone, c);
  }

  // A window taken from a reached watermark, or from none, reaches its own end.
  lemma WindowReaches(enqueued: seq<Window>, s: Snapshot, now: Instant)
    requires s.row.watermark.Some? ==> Reached(enqueued, s.zone, s.row.watermark.value)
    ensures Reached(enqueued + [WindowOf(s, now)], s.zone, now)
  {
    var w := WindowOf(s, now);
    var after := enqueued + [w];
    var c: seq<Window> := [];
    if s.row.watermark.Some? {
      c :| IsChain(enqueued, s.zone, c) && c[|c| - 1].end == s.row.watermark.value;
    }
    var d := c + [w];
    forall i | 0 <= i < |d| ensures d[i] in after && d[i].zone == s.zone {
      if i < |c| {
        assert c[i] in enqueued;
      }
    }
    assert IsChain(after, s.zone, d);
  }

  ghost predicate Known(enqueued: seq<Window>, zone: Uuid, watermark: Option<Instant>) {
    watermark.Some? ==> Reached(enqueued, zone, watermark.value)
  }

  ghost predicate VisitOk(enqueued: seq<Window>, v: Visit) {
    && (forall i :: 0 <= i < |v.todo| ==> Known(enqueued, v.todo[i].zone, v.todo[i].row.watermark))
    && (v.unwritten.Some? ==> Reached(enqueued, v.unwritten.value.0, v.unwritten.value.1))
  }

  ghost predicate Covered(w: World) {
    && (forall z :: z in w.db.zones ==> Known(w.db.enqueued, z, w.db.zones[z].watermark))
    && (forall k :: 0 <= k < |w.visits| ==> VisitOk(w.db.enqueued, w.visits[k]))
  }

  lemma KnownStays(a: seq<Window>, b: seq<Window>, zone: Uuid, watermark: Option<Instant>)
    requires Known(a, zone, watermark) && a <= b
    ensures Known(b, zone, watermark)
  {
    if watermark.Some? {
      ReachedStays(a, b, zone, watermark.value);
    }
  }

  lemma VisitStays(a: seq<Window>, b: seq<Window>, v: Visit)
    requires VisitOk(a, v) && a <= b
    ensures VisitOk(b, v)
  {
    hide Known, Reached;
    forall i | 0 <= i < |v.todo| ensures Known(b, v.todo[i].zone, v.todo[i].row.watermark) {
      KnownStays(a, b, v.todo[i].zone, v.todo[i].row.watermark);
    }
    if v.unwritten.Some? {
      ReachedStays(a, b, v.unwritten.value.0, v.unwritten.value.1);
    }
  }

  // More windows never spoil what is known.
  lemma CoveredGrows(w: World, enqueued: seq<Window>)
    requires Covered(w) && w.db.enqueued <= enqueued
    ensures Covered(w.(db := w.db.(enqueued := enqueued)))
  {
    hide Known, VisitOk;
    forall z | z in w.db.zones ensures Known(enqueued, z, w.db.zones[z].watermark) {
      KnownStays(w.db.enqueued, enqueued, z, w.db.zones[z].watermark);
    }
    forall k | 0 <= k < |w.visits| ensures VisitOk(enqueued, w.visits[k]) {
      VisitStays(w.db.enqueued, enqueued, w.visits[k]);
    }
  }

  lemma VisitingCovered(w: World, k: nat, now: Instant, call: Outcome, t: World)
    requires Covered(w) && Step(w, Visiting(k, now, call)) == Some(t)
    ensures Covered(t)
  {
    hide Reached;
    var s := w.visits[k].todo[0];
    assert VisitOk(w.db.enqueued, w.visits[k]);
    CoveredGrows(w, t.db.enqueued);
    assert VisitOk(t.db.enqueued, w.visits[k]) by {
      VisitStays(w.db.enqueued, t.db.enqueued, w.visits[k]);
    }
    if Confirmed(w.db, s, now, call) {
      assert Known(w.db.enqueued, s.zone, s.row.watermark);
      WindowReaches(w.db.enqueued, s, now);
    }
  }

  lemma CoveredStep(w: World, e: Event, t: World)
    requires Covered(w) && Step(w, e) == Some(t)
    ensures Covered(t)
  {
    hide Reached;
    match e
    case Visiting(k, now, call) => VisitingCovered(w, k, now, call, t);
    case Trigger(z, now, call) => CoveredGrows(w, t.db.enqueued);
    case Writing(k, call) => assert VisitOk(w.db.enqueued, w.visits[k]);
    case _ =>
  }

  lemma {:induction false} CoveredRun(w: World, es: seq<Event>, t: World)
    requires Covered(w) && Runs(w, es, t)
    ensures Covered(t)
    decreases |es|
  {
    hide Step, Covered;
    if es != [] {
      CoveredStep(w, es[0], Step(w, es[0]).value);
      CoveredRun(Step(w, es[0]).value, es[1..], t);
    }
  }

  // Some enqueued window of the zone asks for the instant; its end is not part of it.
  ghost predicate Asked(enqueued: seq<Window>, zone: Uuid, x: Instant) {
    exists v :: v in enqueued && v.zone == zone && v.start <= x < v.end
  }

  /** A chain leaves no instant out between the start of its first window and its end. */
  lemma {:induction false} ChainCovers(enqueued: seq<Window>, zone: Uuid, c: seq<Window>, x: Instant)
    requires IsChain(enqueued, zone, c) && c[0].start <= x < c[|c| - 1].end
    ensures Asked(enqueued, zone, x)
    decreases |c|
  {
    var last := c[|c| - 1];
    if last.start <= x {
      assert last in enqueued && last.zone == zone;
    } else {
      assert |c| > 1;
      ChainCovers(enqueued, zone, c[..|c| - 1], x);
    }
  }

  /** Every value that a zone's watermark ever holds is the end of a contiguous chain of
      enqueued windows back to a first window, and every instant between was asked for: no
      interleaving, crash, lost write, conflict or manual pull leaves a gap. */
  lemma WatermarkCovered(w: World, es: seq<Event>, t: World, zone: Uuid) returns (c: seq<Window>)
    requires Initial(w) && Runs(w, es, t) && zone in t.db.zones && t.db.zones[zone].watermark.Some?
    ensures IsChain(t.db.enqueued, zone, c) && c[|c| - 1].end == t.db.zones[zone].watermark.value
    ensures forall x :: c[0].start <= x < t.db.zones[zone].watermark.value ==> Asked(t.db.enqueued, zone, x)
  {
    CoveredRun(w, es, t);
    assert Known(t.db.enqueued, zone, t.db.zones[zone].watermark);
    c :| IsChain(t.db.enqueued, zone, c) && c[|c| - 1].end == t.db.zones[zone].watermark.value;
    forall x | c[0].start <= x < t.db.zones[zone].watermark.value
      ensures Asked(t.db.enqueued, zone, x)
    {
      ChainCovers(t.db.enqueued, zone, c, x);
    }
  }

  // ── A lost watermark write stalls the zone ─────────────────────────────────────────

  // What a scheduler has read of the zone is its row, and it has no write for it pending.
  predicate Agrees(v: Visit, zone: Uuid, mark: Instant, plan: Plan) {
    && (v.unwritten.Some? ==> v.unwritten.value.0 != zone)
    && (forall i :: 0 <= i < |v.todo| && v.todo[i].zone == zone ==>
          v.todo[i].row.watermark == Some(mark) && v.todo[i].row.plan == plan)
  }

  ghost predicate AllAgree(w: World, zone: Uuid, mark: Instant, plan: Plan) {
    && zone in w.db.zones && w.db.zones[zone].watermark == Some(mark) && w.db.zones[zone].plan == plan
    && plan != Business
    && forall k :: 0 <= k < |w.visits| ==> Agrees(w.visits[k], zone, mark, plan)
  }

  // The zone's next window would reuse an id that is still queued, for every scheduler.
  ghost predicate Stalled(w: World, zone: Uuid, mark: Instant, plan: Plan) {
    && AllAgree(w, zone, mark, plan)
    && TaskId(if plan == FreePro then "sec" else "pull", zone, mark / SECOND) in w.db.queue
  }

  /** A zone stalls when its window is enqueued and the watermark does not follow: because
      the reply of the enqueue was lost, the write failed, or the scheduler died between. */
  lemma EnqueueWithoutWriteStalls(w: World, k: nat, now: Instant, call: Outcome, m: World, e: Event, t: World,
                                  zone: Uuid, mark: Instant, plan: Plan)
    requires AllAgree(w, zone, mark, plan) && k < |w.visits| && w.visits[k].todo != [] && w.visits[k].todo[0].zone == zone
    requires call != Failure && Step(w, Visiting(k, now, call)) == Some(m)
    requires (e == Writing(k, Failure) || e == Crash(k)) && Step(m, e) == Some(t)
    ensures call == LostReply ==> Stalled(m, zone, mark, plan)
    ensures Stalled(t, zone, mark, plan)
  {
    assert Agrees(w.visits[k], zone, mark, plan);
  }

  predicate LeavesTaskAlone(es: seq<Event>, zone: Uuid, plan: Plan) {
    forall i :: 0 <= i < |es| ==>
      && (es[i].TaskGone? ==> es[i].id.zone != zone)
      && (es[i].UpdateZone? && es[i].zone == zone ==> es[i].plan == plan)
  }

  function Scheduled(enqueued: seq<Window>, zone: Uuid): nat {
    if enqueued == [] then 0
    else
      var n := |enqueued| - 1;
      Scheduled(enqueued[..n], zone) + if enqueued[n].zone == zone && enqueued[n].origin != Triggered then 1 else 0
  }

  lemma ScheduledAppend(enqueued: seq<Window>, x: Window, zone: Uuid)
    ensures Scheduled(enqueued + [x], zone) ==
            Scheduled(enqueued, zone) + if x.zone == zone && x.origin != Triggered then 1 else 0
  {
    assert (enqueued + [x])[..|enqueued|] == enqueued;
  }

  lemma StalledVisit(w: World, k: nat, now: Instant, call: Outcome, t: World, zone: Uuid, mark: Instant, plan: Plan)
    requires Stalled(w, zone, mark, plan) && Step(w, Visiting(k, now, call)) == Some(t)
    ensures Stalled(t, zone, mark, plan) && Scheduled(t.db.enqueued, zone) == Scheduled(w.db.enqueued, zone)
  {
    hide Scheduled;
    var s := w.visits[k].todo[0];
    assert Agrees(w.visits[k], zone, mark, plan);
    if !Skipped(w.db, s, now) && call != Failure {
      ScheduledAppend(w.db.enqueued, WindowOf(s, now), zone);
    }
  }

  lemma StalledStep(w: World, e: Event, t: World, zone: Uuid, mark: Instant, plan: Plan)
    requires Stalled(w, zone, mark, plan) && Step(w, e) == Some(t) && LeavesTaskAlone([e], zone, plan)
    ensures Stalled(t, zone, mark, plan) && Scheduled(t.db.enqueued, zone) == Scheduled(w.db.enqueued, zone)
  {
    hide Scheduled;
    assert [e][0] == e;
    match e
    case Trigger(z, now, call) =>
      if call != Failure {
        ScheduledAppend(w.db.enqueued, WindowOf(Snapshot(z, w.db.zones[z]), now).(origin := Triggered), zone);
      }
    case Visiting(k, now, call) => StalledVisit(w, k, now, call, t, zone, mark, plan);
    case _ =>
  }

  /** When a window was enqueued but its watermark write was lost, no scheduler enqueues
      anything for the zone as long as that task is in the queue, over every run: progress
      waits for the task to leave, and then starts over from the same watermark. */
  lemma {:induction false} LostWriteStalls(w: World, es: seq<Event>, t: World, zone: Uuid, mark: Instant, plan: Plan)
    requires Stalled(w, zone, mark, plan) && Runs(w, es, t) && LeavesTaskAlone(es, zone, plan)
    ensures Stalled(t, zone, mark, plan) && Scheduled(t.db.enqueued, zone) == Scheduled(w.db.enqueued, zone)
    decreases |es|
  {
    hide Step, Stalled;
    if es != [] {
      var next := Step(w, es[0]).value;
      StalledStep(w, es[0], next, zone, mark, plan);
      assert forall i :: 0 <= i < |es[1..]| ==> es[1..][i] == es[i + 1];
      LostWriteStalls(next, es[1..], t, zone, mark, plan);
    }
  }

  // ── What one visit does ────────────────────────────────────────────────────────────

  // The window of a zone reaches from its watermark, or from one interval ago, to now.
  predicate AsksFor(v: Window, zone: Uuid, r: ZoneRow, now: Instant, origin: Origin) {
    && v.zone == zone && v.end == now && v.origin == origin
    && v.start == if r.watermark.Some? then r.watermark.value else now - r.interval * 1_000_000_000
  }

  // The id of the zone's task: one kind of task per plan, and the second the window begins.
  predicate Names(id: TaskId, zone: Uuid, r: ZoneRow, start: Instant) {
    id.zone == zone && id.second == start / 1_000_000_000 && id.prefix == if r.plan == FreePro then "sec" else "pull"
  }

  /** A visit leaves a Business zone alone. For any other zone it enqueues one window, up to
      now, exactly when no task of its id is queued and the call takes effect; the scheduler
      then owes the watermark exactly when the call was confirmed. */
  lemma VisitingIs(w: World, k: nat, now: Instant, call: Outcome, t: World, id: TaskId)
    requires Step(w, Visiting(k, now, call)) == Some(t)
    requires var s := w.visits[k].todo[0];
             Names(id, s.zone, s.row, if s.row.watermark.Some? then s.row.watermark.value else now - s.row.interval * SECOND)
    ensures var s := w.visits[k].todo[0];
            && t.db.zones == w.db.zones && k < |t.visits| && t.visits[k].todo == w.visits[k].todo[1..]
            && (s.row.plan == Business ==> t.db == w.db && t.visits[k].unwritten == None)
            && (s.row.plan != Business && (id in w.db.queue || call == Failure) ==> t.db == w.db && t.visits[k].unwritten == None)
            && (s.row.plan != Business && id !in w.db.queue && call != Failure ==>
                  && t.db.queue == w.db.queue + {id} && |t.db.enqueued| == |w.db.enqueued| + 1 && w.db.enqueued <= t.db.enqueued
                  && AsksFor(t.db.enqueued[|w.db.enqueued|], s.zone, s.row, now, if s.row.watermark.Some? then Resumed else First)
                  && t.visits[k].unwritten == if call == Success then Some((s.zone, now)) else None)
  {
    assert id == IdOf(w.visits[k].todo[0], now);
  }

  /** What a scheduler owes is written to that zone alone, unless the call fails. */
  lemma WritingIs(w: World, k: nat, call: Outcome, t: World)
    requires Step(w, Writing(k, call)) == Some(t)
    ensures var (zone, now) := w.visits[k].unwritten.value;
            && t.db.queue == w.db.queue && t.db.enqueued == w.db.enqueued && t.db.zones.Keys == w.db.zones.Keys
            && t.visits == w.visits[k := w.visits[k].(unwritten := None)]
            && forall z :: z in w.db.zones ==>
                 t.db.zones[z] == if z == zone && call != Failure then w.db.zones[z].(watermark := Some(now)) else w.db.zones[z]
  {
  }

  /** A manual pull asks for the same window, for any zone that is not deleted, and touches
      neither the zones nor the queued ids. */
  lemma TriggerIs(w: World, zone: Uuid, now: Instant, call: Outcome)
    ensures Step(w, Trigger(zone, now, call)).Some? <==> zone in w.db.zones && !w.db.zones[zone].deleted
    ensures Step(w, Trigger(zone, now, call)).Some? ==>
              var t := Step(w, Trigger(zone, now, call)).value;
              && t.visits == w.visits && t.db.zones == w.db.zones && t.db.queue == w.db.queue
              && (call == Failure ==> t.db.enqueued == w.db.enqueued)
              && (call != Failure ==>
                    && |t.db.enqueued| == |w.db.enqueued| + 1 && w.db.enqueued <= t.db.enqueued
                    && AsksFor(t.db.enqueued[|w.db.enqueued|], zone, w.db.zones[zone], now, Triggered))
  {
  }

  /** The API accepts intervals from five minutes to six days, and a new zone is active and
      has never been pulled. */
  lemma ZoneEdits(w: World, zone: Uuid, plan: Plan, interval: int, active: bool)
    ensures Step(w, AddZone(zone, plan, interval)).Some? <==> zone !in w.db.zones && 300 <= interval <= 518_400
    ensures zone !in w.db.zones && 300 <= interval <= 518_400 ==>
              var t := Step(w, AddZone(zone, plan, interval)).value;
              t == w.(db := t.db) && t.db == w.db.(zones := w.db.zones[zone := ZoneRow(plan, interval, true, false, None)])
    ensures Step(w, UpdateZone(zone, plan, interval, active)).Some? <==>
              zone in w.db.zones && !w.db.zones[zone].deleted && 300 <= interval <= 518_400
    ensures Step(w, UpdateZone(zone, plan, interval, active)).Some? ==>
              var t := Step(w, UpdateZone(zone, plan, interval, active)).value;
              && t == w.(db := t.db) && t.db == w.db.(zones := t.db.zones) && t.db.zones.Keys == w.db.zones.Keys
              && (forall z :: z in w.db.zones && z != zone ==> t.db.zones[z] == w.db.zones[z])
              && t.db.zones[zone] == ZoneRow(plan, interval, active, false, w.db.zones[zone].watermark)
  {
  }

  // ── Zones that are not scheduled ───────────────────────────────────────────────────

  // Streamed, paused or deleted.
  predicate Unscheduled(r: ZoneRow) {
    r.plan == Business || !r.active || r.deleted
  }

  predicate SilentVisit(v: Visit, zone: Uuid) {
    && (v.unwritten.Some? ==> v.unwritten.value.0 != zone)
    && forall i :: 0 <= i < |v.todo| && v.todo[i].zone == zone ==> v.todo[i].row.plan == Business
  }

  // No scheduler has the zone on its list, unless as a Business zone, or owes it a write.
  ghost predicate Silent(w: World, zone: Uuid, mark: Option<Instant>) {
    && zone in w.db.zones && Unscheduled(w.db.zones[zone]) && w.db.zones[zone].watermark == mark
    && forall k :: 0 <= k < |w.visits| ==> SilentVisit(w.visits[k], zone)
  }

  predicate StaysUnscheduled(es: seq<Event>, zone: Uuid) {
    forall i :: 0 <= i < |es| && es[i].UpdateZone? && es[i].zone == zone ==> es[i].plan == Business || !es[i].active
  }

  lemma SilentVisiting(w: World, k: nat, now: Instant, call: Outcome, t: World, zone: Uuid, mark: Option<Instant>)
    requires Silent(w, zone, mark) && Step(w, Visiting(k, now, call)) == Some(t)
    ensures Silent(t, zone, mark) && Scheduled(t.db.enqueued, zone) == Scheduled(w.db.enqueued, zone)
  {
    hide Scheduled;
    var s := w.visits[k].todo[0];
    assert SilentVisit(w.visits[k], zone);
    if !Skipped(w.db, s, now) && call != Failure {
      ScheduledAppend(w.db.enqueued, WindowOf(s, now), zone);
    }
  }

  lemma SilentListing(w: World, dbNow: Instant, order: seq<Uuid>, t: World, zone: Uuid, mark: Option<Instant>)
    requires Silent(w, zone, mark) && Step(w, List(dbNow, order)) == Some(t)
    ensures Silent(t, zone, mark) && t.db == w.db
  {
    var v := t.visits[|w.visits|];
    forall i | 0 <= i < |v.todo| && v.todo[i].zone == zone ensures v.todo[i].row.plan == Business {
      assert order[i] in order;
    }
  }

  lemma SilentStep(w: World, e: Event, t: World, zone: Uuid, mark: Option<Instant>)
    requires Silent(w, zone, mark) && Step(w, e) == Some(t) && StaysUnscheduled([e], zone)
    ensures Silent(t, zone, mark) && Scheduled(t.db.enqueued, zone) == Scheduled(w.db.enqueued, zone)
  {
    hide Scheduled;
    assert [e][0] == e;
    match e
    case Trigger(z, now, call) =>
      if call != Failure {
        ScheduledAppend(w.db.enqueued, WindowOf(Snapshot(z, w.db.zones[z]), now).(origin := Triggered), zone);
      }
    case Visiting(k, now, call) => SilentVisiting(w, k, now, call, t, zone, mark);
    case List(dbNow, order) => SilentListing(w, dbNow, order, t, zone, mark);
    case Writing(k, _) => assert SilentVisit(w.visits[k], zone);
    case _ =>
  }

  /** As long as a zone is on the Business plan, paused or deleted, no scheduler enqueues a
      window for it or moves its watermark, over every run; only manual pulls do. */
  lemma {:induction false} SilentZone(w: World, es: seq<Event>, t: World, zone: Uuid, mark: Option<Instant>)
    requires Silent(w, zone, mark) && Runs(w, es, t) && StaysUnscheduled(es, zone)
    ensures Silent(t, zone, mark) && Scheduled(t.db.enqueued, zone) == Scheduled(w.db.enqueued, zone)
    decreases |es|
  {
    hide Step, Silent;
    if es != [] {
      var next := Step(w, es[0]).value;
      SilentStep(w, es[0], next, zone, mark);
      assert forall i :: 0 <= i < |es[1..]| ==> es[1..][i] == es[i + 1];
      SilentZone(next, es[1..], t, zone, mark);
    }
  }
}

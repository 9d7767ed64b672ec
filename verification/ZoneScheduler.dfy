/** One scheduler process: its loop over the due zones, and how long its windows get. */
module ZoneScheduler {
  import opened Base
  import opened Scheduler

  // What the loop meets at one zone: its clock and the fate of the two calls.
  datatype Answer = Answer(now: Instant, enqueue: Outcome, write: Outcome)

  function VisitZone(db: Db, s: Snapshot, a: Answer): Db {
    var queued := Enqueue(db, s, a.now, a.enqueue);
    if Confirmed(db, s, a.now, a.enqueue) then Advance(queued, s.zone, a.now, a.write) else queued
  }

  function VisitAll(db: Db, ss: seq<Snapshot>, answers: seq<Answer>): Db
    requires |answers| == |ss|
  {
    if ss == [] then db
    else
      var n := |ss| - 1;
      VisitZone(VisitAll(db, ss[..n], answers[..n]), ss[n], answers[n])
  }

  lemma VisitNext(db: Db, ss: seq<Snapshot>, answers: seq<Answer>, n: nat)
    requires |answers| == |ss| && n < |ss|
    ensures VisitAll(db, ss[..n + 1], answers[..n + 1]) == VisitZone(VisitAll(db, ss[..n], answers[..n]), ss[n], answers[n])
  {
    hide VisitZone;
    assert ss[..n + 1][..n] == ss[..n] && answers[..n + 1][..n] == answers[..n];
  }

  class ZoneScheduler {
    var zones: map<Uuid, ZoneRow>
    var queue: set<TaskId>
    var enqueued: seq<Window>

    function View(): Db
      reads this
    {
      Db(zones, queue, enqueued)
    }

    constructor (db: Db)
      ensures View() == db
    {
      zones, queue, enqueued := db.zones, db.queue, db.enqueued;
    }

    // EnqueueContext with a task id: a queued id is a conflict.
    method EnqueueTask(id: TaskId, window: Window, call: Outcome) returns (confirmed: bool)
      modifies this
      ensures zones == old(zones)
      ensures confirmed <==> id !in old(queue) && call == Success
      ensures id in old(queue) || call == Failure ==> queue == old(queue) && enqueued == old(enqueued)
      ensures id !in old(queue) && call != Failure ==> queue == old(queue) + {id} && enqueued == old(enqueued) + [window]
    {
      if id in queue || call == Failure {
        return false;
      }
      queue := queue + {id};
      enqueued := enqueued + [window];
      confirmed := call == Success;
    }

    method UpdateLastPulled(zone: Uuid, now: Instant, call: Outcome)
      modifies this
      ensures View() == Advance(old(View()), zone, now, call)
      ensures queue == old(queue) && enqueued == old(enqueued) && zones.Keys == old(zones).Keys
      ensures forall z :: z in zones ==>
                zones[z] == if z == zone && call != Failure then old(zones)[z].(watermark := Some(now)) else old(zones)[z]
    {
      if call != Failure && zone in zones {
        zones := zones[zone := zones[zone].(watermark := Some(now))];
      }
    }

    // The body of the loop: the window first, then the watermark.
    method ScheduleZone(s: Snapshot, a: Answer)
      modifies this
      ensures View() == VisitZone(old(View()), s, a)
      ensures s.row.plan == Business ==> View() == old(View())
      ensures var start := if s.row.watermark.Some? then s.row.watermark.value else a.now - s.row.interval * SECOND;
              var id := TaskId(if s.row.plan == FreePro then "sec" else "pull", s.zone, start / SECOND);
              var origin := if s.row.watermark.Some? then Resumed else First;
              s.row.plan != Business ==>
                if id in old(queue) || a.enqueue == Failure then View() == old(View())
                else
                  && queue == old(queue) + {id} && enqueued == old(enqueued) + [Window(s.zone, start, a.now, origin)]
                  && zones == if a.enqueue == Success && a.write != Failure && s.zone in old(zones)
                              then old(zones)[s.zone := old(zones)[s.zone].(watermark := Some(a.now))] else old(zones)
    {
      var start := a.now - s.row.interval * SECOND;
      var origin := First;
      if s.row.watermark.Some? {
        start, origin := s.row.watermark.value, Resumed;
      }
      var id;
      match s.row.plan {
        case Enterprise => id := TaskId("pull", s.zone, start / SECOND);
        case FreePro => id := TaskId("sec", s.zone, start / SECOND);
        case Business => return;
        case Other => id := TaskId("pull", s.zone, start / SECOND);
      }
      var confirmed := EnqueueTask(id, Window(s.zone, start, a.now, origin), a.enqueue);
      if !confirmed {
        return;
      }
      UpdateLastPulled(s.zone, a.now, a.write);
    }

    /** One pass over the due zones, in the order in which the query returned them. */
    method Schedule(dbNow: Instant, listed: bool, order: seq<Uuid>, answers: seq<Answer>)
      requires IsDueList(View(), dbNow, order) && |answers| == |order|
      modifies this
      ensures View() == if listed then VisitAll(old(View()), Snapshots(old(View()), order), answers) else old(View())
    {
      hide VisitZone;
      if !listed {
        return;
      }
      var due := Snapshots(View(), order);
      ghost var before := View();
      for i := 0 to |due|
        invariant View() == VisitAll(before, due[..i], answers[..i])
      {
        VisitNext(before, due, answers, i);
        ScheduleZone(due[i], answers[i]);
      }
      assert due[..|due|] == due && answers[..|due|] == answers;
    }
  }

  // ── A pass is a run of the protocol ────────────────────────────────────────────────

  lemma {:induction false} Join(w: World, es: seq<Event>, m: World, es': seq<Event>, t: World)
    requires Runs(w, es, m) && Runs(m, es', t)
    ensures Runs(w, es + es', t)
    decreases |es|
  {
    hide Step;
    if es == [] {
      assert es + es' == es';
    } else {
      assert (es + es')[1..] == es[1..] + es';
      Join(Step(w, es[0]).value, es[1..], m, es', t);
    }
  }

  // The scheduler's visits after the first n zones of its list.
  function Midway(db: Db, visits: seq<Visit>, ss: seq<Snapshot>, answers: seq<Answer>, n: nat): World
    requires |answers| == |ss| && n <= |ss|
  {
    World(VisitAll(db, ss[..n], answers[..n]), visits + [Visit(ss[n..], None)])
  }

  lemma VisitIsRun(db: Db, visits: seq<Visit>, ss: seq<Snapshot>, answers: seq<Answer>, n: nat) returns (es: seq<Event>)
    requires |answers| == |ss| && n < |ss|
    ensures Runs(Midway(db, visits, ss, answers, n), es, Midway(db, visits, ss, answers, n + 1))
  {
    var w, t := Midway(db, visits, ss, answers, n), Midway(db, visits, ss, answers, n + 1);
    var k, s, a := |visits|, ss[n], answers[n];
    assert ss[..n + 1][..n] == ss[..n] && answers[..n + 1][..n] == answers[..n];
    assert ss[n..][1..] == ss[n + 1..];
    var m := Step(w, Visiting(k, a.now, a.enqueue)).value;
    assert m.visits == visits + [Visit(ss[n + 1..], if Confirmed(w.db, s, a.now, a.enqueue) then Some((s.zone, a.now)) else None)];
    if Confirmed(w.db, s, a.now, a.enqueue) {
      es := [Visiting(k, a.now, a.enqueue), Writing(k, a.write)];
      assert es[1..] == [Writing(k, a.write)] && es[1..][1..] == [];
      assert m.visits[k := m.visits[k].(unwritten := None)] == t.visits;
      assert Step(m, Writing(k, a.write)) == Some(t);
      assert Runs(m, es[1..], t);
    } else {
      es := [Visiting(k, a.now, a.enqueue)];
      assert es[1..] == [] && m == t;
    }
  }

  lemma ListStep(db: Db, visits: seq<Visit>, dbNow: Instant, order: seq<Uuid>, answers: seq<Answer>)
    requires IsDueList(db, dbNow, order) && |answers| == |order|
    ensures Step(World(db, visits), List(dbNow, order)) == Some(Midway(db, visits, Snapshots(db, order), answers, 0))
  {
  }

  /** What Schedule computes is an execution of the protocol in which no other scheduler
      takes a step in between; everything proved for all interleavings applies to it. */
  lemma PassIsRun(db: Db, visits: seq<Visit>, dbNow: Instant, order: seq<Uuid>, answers: seq<Answer>) returns (es: seq<Event>)
    requires IsDueList(db, dbNow, order) && |answers| == |order|
    ensures Runs(World(db, visits), es, World(VisitAll(db, Snapshots(db, order), answers), visits + [Visit([], None)]))
  {
    hide Step, VisitZone;
    var ss := Snapshots(db, order);
    var start := World(db, visits);
    assert Step(start, List(dbNow, order)) == Some(Midway(db, visits, ss, answers, 0)) by {
      ListStep(db, visits, dbNow, order, answers);
    }
    es := [List(dbNow, order)];
    assert es[1..] == [];
    var n := 0;
    while n < |ss|
      invariant n <= |ss|
      invariant Runs(start, es, Midway(db, visits, ss, answers, n))
    {
      var more := VisitIsRun(db, visits, ss, answers, n);
      Join(start, es, Midway(db, visits, ss, answers, n), more, Midway(db, visits, ss, answers, n + 1));
      es := es + more;
      n := n + 1;
    }
    assert ss[..|ss|] == ss && answers[..|ss|] == answers && ss[|ss|..] == [];
  }

  // ── Window lengths ─────────────────────────────────────────────────────────────────

  const HOUR: int := 3600 * SECOND
  const MINUTE: int := 60 * SECOND

  // The two guards of PullLogs.
  predicate FitsHour(v: Window) {
    v.end - v.start <= HOUR
  }

  predicate PullAccepts(v: Window, now: Instant) {
    FitsHour(v) && MINUTE <= now - v.end
  }

  // The windows that schedulers enqueued for the zone.
  function Of(enqueued: seq<Window>, zone: Uuid): seq<Window> {
    if enqueued == [] then []
    else
      var n := |enqueued| - 1;
      Of(enqueued[..n], zone) + if enqueued[n].zone == zone && enqueued[n].origin != Triggered then [enqueued[n]] else []
  }

  lemma OfAppend(enqueued: seq<Window>, v: Window, zone: Uuid)
    ensures Of(enqueued + [v], zone) == Of(enqueued, zone) + if v.zone == zone && v.origin != Triggered then [v] else []
  {
    assert (enqueued + [v])[..|enqueued|] == enqueued;
  }

  // What may happen to the database between two passes: anything to other zones, manual
  // pulls, and tasks leaving the queue.
  ghost predicate Meanwhile(a: Db, b: Db, zone: Uuid) {
    && zone in a.zones && zone in b.zones && b.zones[zone] == a.zones[zone]
    && Of(b.enqueued, zone) == Of(a.enqueued, zone)
    && forall id: TaskId :: id.zone == zone && id in b.queue ==> id in a.queue
  }

  // Steps of the protocol that are nobody's scheduling and no edit of the zone.
  predicate Foreign(e: Event, zone: Uuid) {
    e.AddZone? || e.Trigger? || e.TaskGone? || (e.UpdateZone? && e.zone != zone) || (e.DeleteZone? && e.zone != zone)
  }

  /** Adding zones, editing or deleting other zones, manual pulls of any zone and tasks that
      leave the queue are all such changes. */
  lemma ForeignStep(w: World, e: Event, t: World, zone: Uuid)
    requires Step(w, e) == Some(t) && Foreign(e, zone) && zone in w.db.zones
    ensures Meanwhile(w.db, t.db, zone)
  {
    if e.Trigger? && e.call != Failure {
      OfAppend(w.db.enqueued, WindowOf(Snapshot(e.zone, w.db.zones[e.zone]), e.now).(origin := Triggered), zone);
    }
  }

  lemma {:induction false} ForeignRun(w: World, es: seq<Event>, t: World, zone: Uuid)
    requires Runs(w, es, t) && zone in w.db.zones && forall i :: 0 <= i < |es| ==> Foreign(es[i], zone)
    ensures Meanwhile(w.db, t.db, zone)
    decreases |es|
  {
    hide Step, Of;
    if es != [] {
      var next := Step(w, es[0]).value;
      ForeignStep(w, es[0], next, zone);
      ForeignRun(next, es[1..], t, zone);
    }
  }

  // One pass of a lone scheduler, and the database that it finds.
  datatype Pass = Pass(found: Db, dbNow: Instant, order: seq<Uuid>, answers: seq<Answer>)

  // Listed and visited at most gap after the listing before, with every call working.
  ghost predicate Punctual(db: Db, zone: Uuid, lastList: Instant, gap: int, p: Pass) {
    && Meanwhile(db, p.found, zone) && IsDueList(p.found, p.dbNow, p.order) && |p.answers| == |p.order|
    && forall i :: 0 <= i < |p.answers| ==>
         && p.answers[i].enqueue == Success && p.answers[i].write == Success
         && p.dbNow <= p.answers[i].now <= lastList + gap
  }

  function RunPass(p: Pass): Db
    requires IsDueList(p.found, p.dbNow, p.order) && |p.answers| == |p.order|
  {
    VisitAll(p.found, Snapshots(p.found, p.order), p.answers)
  }

  ghost predicate PunctualPasses(db: Db, zone: Uuid, lastList: Instant, gap: int, ps: seq<Pass>, end: Db)
    decreases |ps|
  {
    if ps == [] then db == end
    else
      Punctual(db, zone, lastList, gap, ps[0]) && PunctualPasses(RunPass(ps[0]), zone, ps[0].dbNow, gap, ps[1..], end)
  }

  // Two databases that agree on everything of one zone.
  ghost predicate Alike(a: Db, b: Db, zone: Uuid) {
    && (zone in a.zones <==> zone in b.zones) && (zone in a.zones ==> a.zones[zone] == b.zones[zone])
    && Of(a.enqueued, zone) == Of(b.enqueued, zone)
    && forall id: TaskId :: id.zone == zone ==> (id in a.queue <==> id in b.queue)
  }

  lemma OwnVisitAlike(a: Db, b: Db, s: Snapshot, answer: Answer)
    requires Alike(a, b, s.zone)
    ensures Alike(VisitZone(a, s, answer), VisitZone(b, s, answer), s.zone)
  {
    hide Of;
    OfAppend(a.enqueued, WindowOf(s, answer.now), s.zone);
    OfAppend(b.enqueued, WindowOf(s, answer.now), s.zone);
    assert IdOf(s, answer.now) in a.queue <==> IdOf(s, answer.now) in b.queue;
  }

  lemma OtherVisitAlike(a: Db, b: Db, s: Snapshot, answer: Answer, zone: Uuid)
    requires Alike(a, b, zone) && s.zone != zone
    ensures Alike(VisitZone(a, s, answer), b, zone)
  {
    hide Of;
    OfAppend(a.enqueued, WindowOf(s, answer.now), zone);
    assert Of(a.enqueued, zone) + [] == Of(a.enqueued, zone);
  }

  lemma AlikeSelf(db: Db, zone: Uuid)
    ensures Alike(db, db, zone)
  {
  }

  // A pass does to a zone what the visit of that zone does, or nothing.
  lemma {:induction false} PassOnZone(db: Db, ss: seq<Snapshot>, answers: seq<Answer>, zone: Uuid, i: nat)
    requires |answers| == |ss| && (i < |ss| ==> ss[i].zone == zone)
    requires forall j :: 0 <= j < |ss| && j != i ==> ss[j].zone != zone
    ensures Alike(VisitAll(db, ss, answers), if i < |ss| then VisitZone(db, ss[i], answers[i]) else db, zone)
    decreases |ss|
  {
    hide VisitZone, Alike;
    if ss == [] {
      AlikeSelf(db, zone);
    } else {
      var n := |ss| - 1;
      if i < n {
        PassOnZone(db, ss[..n], answers[..n], zone, i);
        OtherVisitAlike(VisitAll(db, ss[..n], answers[..n]), VisitZone(db, ss[i], answers[i]), ss[n], answers[n], zone);
      } else {
        PassOnZone(db, ss[..n], answers[..n], zone, n);
        if i == n {
          OwnVisitAlike(VisitAll(db, ss[..n], answers[..n]), db, ss[n], answers[n]);
        } else {
          OtherVisitAlike(VisitAll(db, ss[..n], answers[..n]), db, ss[n], answers[n], zone);
        }
      }
    }
  }

  lemma OneVisit(db: Db, zone: Uuid, a: Answer)
    requires zone in db.zones
    ensures var r := db.zones[zone];
            var start := if r.watermark.Some? then r.watermark.value else a.now - r.interval * 1_000_000_000;
            var id := TaskId(if r.plan == FreePro then "sec" else "pull", zone, start / 1_000_000_000);
            var after := VisitZone(db, Snapshot(zone, r), a);
            && zone in after.zones
            && if r.plan == Business || id in db.queue || a.enqueue == Failure then
                 after.zones[zone] == r && Of(after.enqueued, zone) == Of(db.enqueued, zone)
               else
                 && Of(after.enqueued, zone) == Of(db.enqueued, zone) + [Window(zone, start, a.now, if r.watermark.Some? then Resumed else First)]
                 && after.zones[zone] == if a.enqueue == Success && a.write != Failure then r.(watermark := Some(a.now)) else r
  {
    hide Of;
    OfAppend(db.enqueued, WindowOf(Snapshot(zone, db.zones[zone]), a.now), zone);
  }

  /** What a pass does to each zone that it has listed: nothing for a Business zone, one that
      has a task of this id queued, or one whose enqueue fails; for any other it enqueues
      the window from the watermark, or one interval back, to now, and then moves the
      watermark there unless a reply or the write was lost. */
  lemma PassOnListedZone(db: Db, dbNow: Instant, order: seq<Uuid>, answers: seq<Answer>, i: nat)
    requires IsDueList(db, dbNow, order) && |answers| == |order| && i < |order|
    ensures var zone, a := order[i], answers[i];
            var r, after := db.zones[zone], VisitAll(db, Snapshots(db, order), answers);
            var start := if r.watermark.Some? then r.watermark.value else a.now - r.interval * 1_000_000_000;
            var id := TaskId(if r.plan == FreePro then "sec" else "pull", zone, start / 1_000_000_000);
            && r.active && !r.deleted && zone in after.zones
            && if r.plan == Business || id in db.queue || a.enqueue == Failure then
                 after.zones[zone] == r && Of(after.enqueued, zone) == Of(db.enqueued, zone)
               else
                 && Of(after.enqueued, zone) == Of(db.enqueued, zone) + [Window(zone, start, a.now, if r.watermark.Some? then Resumed else First)]
                 && after.zones[zone] == if a.enqueue == Success && a.write != Failure then r.(watermark := Some(a.now)) else r
  {
    hide VisitZone, VisitAll, Of;
    assert order[i] in order;
    PassOnZone(db, Snapshots(db, order), answers, order[i], i);
    OneVisit(db, order[i], answers[i]);
  }

  /** And nothing to a zone that was not due. */
  lemma PassOnOtherZone(db: Db, dbNow: Instant, order: seq<Uuid>, answers: seq<Answer>, zone: Uuid)
    requires IsDueList(db, dbNow, order) && |answers| == |order| && zone in db.zones
    requires var r := db.zones[zone];
             !r.active || r.deleted || (r.watermark.Some? && dbNow - r.interval * 1_000_000_000 <= r.watermark.value)
    ensures var after := VisitAll(db, Snapshots(db, order), answers);
            zone in after.zones && after.zones[zone] == db.zones[zone] && Of(after.enqueued, zone) == Of(db.enqueued, zone)
  {
    hide VisitAll, Of;
    PassOnZone(db, Snapshots(db, order), answers, zone, |order|);
  }

  predicate Steady(r: ZoneRow, plan: Plan, interval: int) {
    r.plan == plan && r.interval == interval && r.active && !r.deleted
  }

  // Lengths of the windows of one zone on a fixed interval: the first is as long as the
  // interval, the others longer by at most the gap between passes.
  predicate Lengths(vs: seq<Window>, interval: int, gap: int) {
    && (vs != [] ==> vs[0].origin == First && vs[0].end - vs[0].start == interval * SECOND)
    && forall i :: 1 <= i < |vs| ==>
         && vs[i].start == vs[i - 1].end
         && interval * SECOND < vs[i].end - vs[i].start <= interval * SECOND + gap
  }

  ghost predicate OnTime(db: Db, lastList: Instant, gap: int, zone: Uuid, plan: Plan, interval: int) {
    && zone in db.zones && Steady(db.zones[zone], plan, interval) && plan != Business && MIN_INTERVAL <= interval
    && Lengths(Of(db.enqueued, zone), interval, gap)
    && match db.zones[zone].watermark
       case None => Of(db.enqueued, zone) == [] && forall id: TaskId :: id in db.queue ==> id.zone != zone
       case Some(w) =>
         && Of(db.enqueued, zone) != [] && Of(db.enqueued, zone)[|Of(db.enqueued, zone)| - 1].end == w
         && lastList <= w + interval * SECOND
         && forall id: TaskId :: id in db.queue && id.zone == zone ==> id.second * SECOND <= w - interval * SECOND
  }

  lemma LongerBy(vs: seq<Window>, v: Window, interval: int, gap: int)
    requires Lengths(vs, interval, gap)
    requires vs == [] ==> v.origin == First && v.end - v.start == interval * SECOND
    requires vs != [] ==> v.start == vs[|vs| - 1].end && interval * SECOND < v.end - v.start <= interval * SECOND + gap
    ensures Lengths(vs + [v], interval, gap)
  {
  }

  /** The visit of a due zone by a lone scheduler always enqueues: no conflict can occur,
      because every id used before belongs to a start at least one interval earlier. */
  lemma OwnVisit(db: Db, lastList: Instant, gap: int, zone: Uuid, plan: Plan, interval: int, dbNow: Instant, a: Answer)
    requires OnTime(db, lastList, gap, zone, plan, interval) && Due(db.zones[zone], dbNow)
    requires a.enqueue == Success && a.write == Success && dbNow <= a.now <= lastList + gap
    ensures var after := VisitZone(db, Snapshot(zone, db.zones[zone]), a);
            && OnTime(after, dbNow, gap, zone, plan, interval)
            && Of(after.enqueued, zone) == Of(db.enqueued, zone) + [WindowOf(Snapshot(zone, db.zones[zone]), a.now)]
            && after.zones[zone].watermark == Some(a.now)
  {
    hide Lengths, Of;
    var s := Snapshot(zone, db.zones[zone]);
    var v := WindowOf(s, a.now);
    OfAppend(db.enqueued, v, zone);
    var vs := Of(db.enqueued, zone);
    assert IdOf(s, a.now).second * SECOND <= v.start;
    assert IdOf(s, a.now) !in db.queue by {
      if s.row.watermark.Some? {
        assert v.start - SECOND < IdOf(s, a.now).second * SECOND;
      }
    }
    LongerBy(vs, v, interval, gap);
  }

  lemma OnTimeAlike(a: Db, b: Db, lastList: Instant, gap: int, zone: Uuid, plan: Plan, interval: int)
    requires OnTime(a, lastList, gap, zone, plan, interval) && Alike(b, a, zone)
    ensures OnTime(b, lastList, gap, zone, plan, interval)
  {
    hide Of;
  }

  lemma OnTimeMeanwhile(a: Db, b: Db, lastList: Instant, gap: int, zone: Uuid, plan: Plan, interval: int)
    requires OnTime(a, lastList, gap, zone, plan, interval) && Meanwhile(a, b, zone)
    ensures OnTime(b, lastList, gap, zone, plan, interval)
  {
    hide Of;
    assert a.zones[zone].watermark.None? ==> forall id: TaskId :: id in b.queue ==> id.zone != zone;
  }

  lemma PassOnTime(db: Db, lastList: Instant, gap: int, p: Pass, zone: Uuid, plan: Plan, interval: int)
    requires OnTime(db, lastList, gap, zone, plan, interval) && Punctual(db, zone, lastList, gap, p)
    ensures OnTime(RunPass(p), p.dbNow, gap, zone, plan, interval)
  {
    hide VisitZone, Alike, Lengths, Of, Meanwhile;
    var ss := Snapshots(p.found, p.order);
    OnTimeMeanwhile(db, p.found, lastList, gap, zone, plan, interval);
    if zone in p.order {
      var i :| 0 <= i < |p.order| && p.order[i] == zone;
      PassOnZone(p.found, ss, p.answers, zone, i);
      OwnVisit(p.found, lastList, gap, zone, plan, interval, p.dbNow, p.answers[i]);
      OnTimeAlike(VisitZone(p.found, ss[i], p.answers[i]), RunPass(p), p.dbNow, gap, zone, plan, interval);
    } else {
      PassOnZone(p.found, ss, p.answers, zone, |ss|);
      assert OnTime(p.found, p.dbNow, gap, zone, plan, interval);
      OnTimeAlike(p.found, RunPass(p), p.dbNow, gap, zone, plan, interval);
    }
  }

  /** A lone scheduler whose passes are at most gap apart and whose calls succeed gives a
      steady zone a first window of exactly the interval and then windows that continue
      one another, each longer than the interval and at most gap longer. */
  lemma {:induction false} WindowLengths(db: Db, lastList: Instant, gap: int, ps: seq<Pass>, end: Db,
                                         zone: Uuid, plan: Plan, interval: int)
    requires OnTime(db, lastList, gap, zone, plan, interval) && PunctualPasses(db, zone, lastList, gap, ps, end)
    ensures zone in end.zones && Lengths(Of(end.enqueued, zone), interval, gap)
    decreases |ps|
  {
    hide Lengths, Of, IsDueList, Meanwhile;
    if ps != [] {
      PassOnTime(db, lastList, gap, ps[0], zone, plan, interval);
      WindowLengths(RunPass(ps[0]), ps[0].dbNow, gap, ps[1..], end, zone, plan, interval);
    }
  }

  // ── Which windows can be pulled ────────────────────────────────────────────────────

  /** In any such run, a window can be pulled exactly when it is a minute old and fits into an
      hour. The first does exactly when the interval is at most an hour; a later one when
      interval and gap fit into an hour, and not when the interval is an hour or more. */
  lemma PullableWindows(db: Db, lastList: Instant, gap: int, ps: seq<Pass>, end: Db,
                        zone: Uuid, plan: Plan, interval: int, i: nat, now: Instant)
    requires OnTime(db, lastList, gap, zone, plan, interval) && PunctualPasses(db, zone, lastList, gap, ps, end)
    requires i < |Of(end.enqueued, zone)|
    ensures now - Of(end.enqueued, zone)[i].end < 60_000_000_000 ==> !PullAccepts(Of(end.enqueued, zone)[i], now)
    ensures 60_000_000_000 <= now - Of(end.enqueued, zone)[i].end ==> (PullAccepts(Of(end.enqueued, zone)[i], now) <==> FitsHour(Of(end.enqueued, zone)[i]))
    ensures i == 0 ==> (FitsHour(Of(end.enqueued, zone)[i]) <==> interval <= 3600)
    ensures i > 0 && interval * SECOND + gap <= HOUR ==> FitsHour(Of(end.enqueued, zone)[i])
    ensures i > 0 && 3600 <= interval ==> !FitsHour(Of(end.enqueued, zone)[i])
  {
    hide OnTime, PunctualPasses, Of;
    WindowLengths(db, lastList, gap, ps, end, zone, plan, interval);
  }

  // The listings of the passes are at most gap apart.
  predicate Ticking(lastList: Instant, gap: int, ps: seq<Pass>)
    decreases |ps|
  {
    ps == [] || (lastList <= ps[0].dbNow <= lastList + gap && Ticking(ps[0].dbNow, gap, ps[1..]))
  }

  ghost predicate IsWindow(db: Db, lastList: Instant, gap: int, ps: seq<Pass>, end: Db,
                           zone: Uuid, plan: Plan, interval: int, i: nat, v: Window)
  {
    && OnTime(db, lastList, gap, zone, plan, interval)
    && PunctualPasses(db, zone, lastList, gap, ps, end) && Ticking(lastList, gap, ps)
    && 0 < i < |Of(end.enqueued, zone)| && Of(end.enqueued, zone)[i] == v
  }

  // A window after the zone's first that some such run enqueues.
  ghost predicate Enqueued(gap: int, zone: Uuid, plan: Plan, interval: int, v: Window) {
    exists db, lastList, ps, end, i :: IsWindow(db, lastList, gap, ps, end, zone, plan, interval, i, v)
  }

  lemma EnqueuedLength(gap: int, zone: Uuid, plan: Plan, interval: int, v: Window)
    requires Enqueued(gap, zone, plan, interval, v)
    ensures interval * SECOND < v.end - v.start <= interval * SECOND + gap
  {
    hide OnTime, PunctualPasses, Of;
    var db, lastList, ps, end, i :| IsWindow(db, lastList, gap, ps, end, zone, plan, interval, i, v);
    WindowLengths(db, lastList, gap, ps, end, zone, plan, interval);
  }

  // Passes from one instant to another that find nothing due.
  function Idle(db: Db, from: Instant, until: Instant, gap: int): seq<Pass>
    requires gap > 0
    decreases until - from
  {
    if until <= from then []
    else
      var next := if from + gap < until then from + gap else until;
      [Pass(db, next, [], [])] + Idle(db, next, until, gap)
  }

  predicate OnlyZone(db: Db, zone: Uuid) {
    db.zones.Keys == {zone}
  }

  lemma {:induction false} IdleThen(db: Db, zone: Uuid, from: Instant, until: Instant, gap: int, p: Pass)
    requires gap > 0 && from <= until && OnlyZone(db, zone) && !Due(db.zones[zone], until)
    requires Punctual(db, zone, until, gap, p) && until <= p.dbNow <= until + gap
    ensures PunctualPasses(db, zone, from, gap, Idle(db, from, until, gap) + [p], RunPass(p))
    ensures Ticking(from, gap, Idle(db, from, until, gap) + [p])
    decreases until - from
  {
    hide VisitZone, Of;
    var ps := Idle(db, from, until, gap) + [p];
    if until <= from {
      assert ps == [p] && ps[1..] == [];
    } else {
      var next := if from + gap < until then from + gap else until;
      assert ps[0] == Pass(db, next, [], []) && ps[1..] == Idle(db, next, until, gap) + [p];
      assert RunPass(ps[0]) == db;
      IdleThen(db, zone, next, until, gap, p);
    }
  }

  function VisitOf(db: Db, zone: Uuid, now: Instant): Pass {
    Pass(db, now, [zone], [Answer(now, Success, Success)])
  }

  lemma VisitPass(db: Db, zone: Uuid, lastList: Instant, gap: int, now: Instant)
    requires OnlyZone(db, zone) && Due(db.zones[zone], now) && lastList <= now <= lastList + gap
    ensures Punctual(db, zone, lastList, gap, VisitOf(db, zone, now))
    ensures RunPass(VisitOf(db, zone, now)) == VisitZone(db, Snapshot(zone, db.zones[zone]), Answer(now, Success, Success))
  {
    hide VisitZone, Of;
    var p, s := VisitOf(db, zone, now), Snapshot(zone, db.zones[zone]);
    assert Snapshots(db, [zone]) == [s];
    assert [s][..0] == [] && p.answers[..0] == [];
    assert VisitAll(db, [s], p.answers) == VisitZone(VisitAll(db, [], []), s, p.answers[0]);
  }

  function Fresh(zone: Uuid, plan: Plan, interval: int): Db {
    Db(map[zone := ZoneRow(plan, interval, true, false, None)], {}, [])
  }

  lemma FreshOnTime(gap: int, zone: Uuid, plan: Plan, interval: int)
    requires plan != Business && MIN_INTERVAL <= interval
    ensures OnTime(Fresh(zone, plan, interval), 0, gap, zone, plan, interval)
  {
  }

  lemma FirstVisit(db: Db, zone: Uuid)
    requires OnlyZone(db, zone)
    ensures var after := VisitZone(db, Snapshot(zone, db.zones[zone]), Answer(0, Success, Success));
            OnlyZone(after, zone) && after.zones[zone].(watermark := None) == db.zones[zone].(watermark := None)
  {
  }

  lemma OnTimeSince(db: Db, lastList: Instant, until: Instant, gap: int, zone: Uuid, plan: Plan, interval: int)
    requires OnTime(db, lastList, gap, zone, plan, interval) && db.zones[zone].watermark == Some(until - interval * SECOND)
    ensures OnTime(db, until, gap, zone, plan, interval)
  {
    hide Of, Lengths;
  }

  lemma FirstPass(db: Db, zone: Uuid, lastList: Instant, gap: int, ps: seq<Pass>, end: Db)
    requires ps != [] && Punctual(db, zone, lastList, gap, ps[0])
    requires PunctualPasses(RunPass(ps[0]), zone, ps[0].dbNow, gap, ps[1..], end)
    ensures PunctualPasses(db, zone, lastList, gap, ps, end)
  {
    hide Punctual, RunPass;
  }

  /** Passes that tick on time can delay the second window by any part of the gap. */
  lemma DelayedWindow(gap: int, zone: Uuid, plan: Plan, interval: int, late: int)
    requires 1 <= late <= gap && plan != Business && MIN_INTERVAL <= interval
    ensures Enqueued(gap, zone, plan, interval, Window(zone, 0, interval * SECOND + late, Resumed))
  {
    hide VisitZone, Of, PunctualPasses, RunPass, Punctual, Lengths;
    var until, now := interval * SECOND, interval * SECOND + late;
    var db := Fresh(zone, plan, interval);
    assert OnTime(db, 0, gap, zone, plan, interval) by {
      FreshOnTime(gap, zone, plan, interval);
    }
    VisitPass(db, zone, 0, gap, 0);
    var first := RunPass(VisitOf(db, zone, 0));
    OwnVisit(db, 0, gap, zone, plan, interval, 0, Answer(0, Success, Success));
    FirstVisit(db, zone);
    VisitPass(first, zone, until, gap, now);
    var p := VisitOf(first, zone, now);
    IdleThen(first, zone, 0, until, gap, p);
    var end := RunPass(p);
    OnTimeSince(first, 0, until, gap, zone, plan, interval);
    OwnVisit(first, until, gap, zone, plan, interval, now, Answer(now, Success, Success));
    var ps := [VisitOf(db, zone, 0)] + (Idle(first, 0, until, gap) + [p]);
    assert ps[1..] == Idle(first, 0, until, gap) + [p];
    FirstPass(db, zone, 0, gap, ps, end);
    assert IsWindow(db, 0, gap, ps, end, zone, plan, interval, 1, Window(zone, 0, now, Resumed));
  }

  /** With passes at most gap apart, every window after a zone's first fits into the hour
      that a pull may span, in every run, exactly when interval and gap together do; and
      some window ever does exactly when the interval is shorter than an hour, although the
      API accepts intervals of up to six days. */
  lemma PullableExactlyWhen(gap: int, zone: Uuid, plan: Plan, interval: int)
    requires gap > 0 && plan != Business && MIN_INTERVAL <= interval
    ensures (forall v :: Enqueued(gap, zone, plan, interval, v) ==> FitsHour(v)) <==> interval * SECOND + gap <= HOUR
    ensures (exists v :: Enqueued(gap, zone, plan, interval, v) && FitsHour(v)) <==> interval < 3600
  {
    hide Enqueued;
    forall v | Enqueued(gap, zone, plan, interval, v)
      ensures interval * SECOND < v.end - v.start <= interval * SECOND + gap
    {
      EnqueuedLength(gap, zone, plan, interval, v);
    }
    DelayedWindow(gap, zone, plan, interval, gap);
    DelayedWindow(gap, zone, plan, interval, 1);
    assert FitsHour(Window(zone, 0, interval * SECOND + 1, Resumed)) <==> interval < 3600;
    assert FitsHour(Window(zone, 0, interval * SECOND + gap, Resumed)) <==> interval * SECOND + gap <= HOUR;
  }
}

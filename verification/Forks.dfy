/** Each thing that an orderly run grants to a zone is needed: runs from an empty start that
    deny only one of them and leave an archived row beside the path. */
module Forks {
  import opened Base
  import opened Calendar
  import opened Blob
  import opened ObjectStore
  import opened Pipeline
  import opened ChainForest
  import opened ChainPath
  import opened Reach
  import Lifecycle
  import Processors
  import Quota

  ghost predicate Granted(env: Env, s: System, es: seq<Event>, zone: Uuid, d: Demand)
    decreases |es|
  {
    es != [] ==> Grants(s, es[0], zone, d) && (Step(env, s, es[0]).Some? ==> Granted(env, Step(env, s, es[0]).value, es[1..], zone, d))
  }

  /** A run is orderly exactly when it grants all four. */
  lemma {:induction false} OrderlyIsAllGranted(env: Env, s: System, es: seq<Event>, zone: Uuid)
    ensures OrderlyRun(env, s, es, zone) <==>
            Granted(env, s, es, zone, OneAtATime) && Granted(env, s, es, zone, ClockMoves) &&
            Granted(env, s, es, zone, Lookups) && Granted(env, s, es, zone, NewestKept)
    decreases |es|
  {
    hide Step, Grants;
    if es != [] && Step(env, s, es[0]).Some? {
      OrderlyIsAllGranted(env, Step(env, s, es[0]).value, es[1..], zone);
    }
  }

  lemma {:induction false} GrantedJoin(env: Env, s: System, es: seq<Event>, m: System, es': seq<Event>, zone: Uuid, d: Demand)
    requires Runs(env, s, es, m) && Granted(env, s, es, zone, d) && Granted(env, m, es', zone, d)
    ensures Granted(env, s, es + es', zone, d)
    decreases |es|
  {
    hide Step, Grants;
    if es == [] {
      assert es + es' == es';
    } else {
      assert (es + es')[1..] == es[1..] + es';
      GrantedJoin(env, Step(env, s, es[0]).value, es[1..], m, es', zone, d);
    }
  }

  lemma {:induction false} MildGranted(env: Env, s: System, es: seq<Event>, zone: Uuid, d: Demand)
    requires forall k :: 0 <= k < |es| ==> Mild(es[k]) || (d != Lookups && es[k].Link?) || (d != NewestKept && es[k].ExpireMark?)
    ensures Granted(env, s, es, zone, d)
    decreases |es|
  {
    hide Step;
    if es != [] && Step(env, s, es[0]).Some? {
      assert forall k :: 0 <= k < |es[1..]| ==> es[1..][k] == es[k + 1];
      MildGranted(env, Step(env, s, es[0]).value, es[1..], zone, d);
    }
  }

  // From s to t, a run that grants the zone everything but what is denied.
  ghost predicate AllBut(env: Env, s: System, es: seq<Event>, t: System, zone: Uuid, denied: Demand) {
    Runs(env, s, es, t) && forall d :: d != denied ==> Granted(env, s, es, zone, d)
  }

  lemma AllButJoin(env: Env, s: System, es: seq<Event>, m: System, es': seq<Event>, t: System, zone: Uuid, denied: Demand)
    requires AllBut(env, s, es, m, zone, denied) && AllBut(env, m, es', t, zone, denied)
    ensures AllBut(env, s, es + es', t, zone, denied)
  {
    hide Runs, Granted;
    Join(env, s, es, m, es', t);
    forall d | d != denied ensures Granted(env, s, es + es', zone, d) {
      GrantedJoin(env, s, es, m, es', zone, d);
    }
  }

  lemma AllButMild(env: Env, s: System, es: seq<Event>, t: System, zone: Uuid, denied: Demand)
    requires Runs(env, s, es, t)
    requires forall k :: 0 <= k < |es| ==>
               Mild(es[k]) || (denied == Lookups && es[k].Link?) || (denied == NewestKept && es[k].ExpireMark?)
    ensures AllBut(env, s, es, t, zone, denied)
  {
    hide Runs, Granted;
    forall d | d != denied ensures Granted(env, s, es, zone, d) {
      MildGranted(env, s, es, zone, d);
    }
  }

  // An archived row whose link is not to the last settled row of its zone before it.
  ghost predicate Beside(s: System, zone: Uuid, i: nat) {
    Archived(s, i) && InZone(s, i, zone) && s.rows[i].parent != PrevSettled(s.rows, zone, i)
  }

  // ── One window ─────────────────────────────────────────────────────────────────────

  // One customer without a limit, one zone, one provider; every row is of the one zone.
  ghost predicate Idle(s: System, w: Window) {
    && Printable(w) && s.zones == map[w.zone := Zone(w.customer, false)] && s.customers == map[w.customer := Customer(-1, 395, false)]
    && |s.stores| == 1 && |s.attempts| == |s.rows| && (forall k :: 0 <= k < |s.rows| ==> s.attempts[k] == Over && s.rows[k].window == w)
  }

  predicate NewId(s: System, id: Uuid) {
    forall k :: 0 <= k < |s.rows| ==> s.rows[k].id != id
  }

  predicate Later(s: System) {
    forall k :: 0 <= k < |s.rows| ==> s.rows[k].createdAt < s.now
  }

  lemma BlankAfter(rows: seq<Job>, after: seq<Job>, zone: Uuid)
    requires |after| == |rows| + 1 && after[..|rows|] == rows && after[|rows|].status == Pending
    ensures LastDone(after, zone) == LastDone(rows, zone)
  {
  }

  lemma ChecksMild(i: nat)
    ensures Mild(LoadCustomer(i)) && Mild(LoadZone(i)) && Mild(CheckQuota(i))
  {
  }

  // The task's creation is the only step of its checks that asks for anything.
  lemma Admits(env: Env, s: System, id: Uuid, w: Window, t: System, denied: Demand)
    requires |s.attempts| == |s.rows| && Runs(env, s, Admitting(id, w, |s.rows|), t)
    requires denied == OneAtATime || forall k :: 0 <= k < |s.rows| ==> s.attempts[k] == Over
    requires denied == ClockMoves || Later(s)
    ensures AllBut(env, s, Admitting(id, w, |s.rows|), t, w.zone, denied)
  {
    hide Step, Runs, Mild;
    var es := Admitting(id, w, |s.rows|);
    assert es[1..] == [LoadCustomer(|s.rows|), LoadZone(|s.rows|), CheckQuota(|s.rows|)];
    forall d | d != denied ensures Granted(env, s, es, w.zone, d) {
      if Step(env, s, es[0]).Some? {
        assert forall k :: 0 <= k < 3 ==> Mild(es[1..][k]) by { ChecksMild(|s.rows|); }
        MildGranted(env, Step(env, s, es[0]).value, es[1..], w.zone, d);
      }
    }
  }

  // A window is archived from its task's creation to the closing write.
  lemma ArchiveWindow(env: Env, s: System, id: Uuid, w: Window, raw: Bytes, answered: bool, denied: Demand)
    returns (es: seq<Event>, t: System)
    requires Idle(s, w) && NewId(s, id) && raw != "" && env.concurrency >= 1
    requires (denied == ClockMoves || Later(s)) && (denied == Lookups || answered)
    ensures AllBut(env, s, es, t, w.zone, denied) && Idle(t, w) && t.now == s.now && |t.rows| == |s.rows| + 1
    ensures t.rows[..|s.rows|] == s.rows && Archived(t, |s.rows|) && t.expirers == s.expirers
    ensures var j := t.rows[|s.rows|];
            && j.status == Done && j.id == id && j.createdAt == s.now
            && j.parent == if answered then LastDone(s.rows, w.zone) else None
  {
    hide Step, Runs, Granted, LastDone, PrepareBlob, Printable, Usage, MonthBegin, PutAll, ParentHash;
    Quota.NoneInFlight(s.attempts);
    var n := |s.rows|;
    var a := NewTaskRun(env, s, id, w);
    t := ArchiveRun(env, a, n, raw, answered, [Success]);
    assert LastDone(a.rows, w.zone) == LastDone(s.rows, w.zone) by { BlankAfter(s.rows, a.rows, w.zone); }
    Admits(env, s, id, w, a, denied);
    AllButMild(env, a, Archiving(n, raw, answered, [Success]), t, w.zone, denied);
    AllButJoin(env, s, Admitting(id, w, n), a, Archiving(n, raw, answered, [Success]), t, w.zone, denied);
    es := Admitting(id, w, n) + Archiving(n, raw, answered, [Success]);
  }

  lemma Ticks(env: Env, s: System, zone: Uuid, denied: Demand, later: Time)
    requires s.now <= later
    ensures AllBut(env, s, [Tick(later)], s.(now := later), zone, denied)
  {
    Processors.RunsNothing(env, s.(now := later));
    assert [Tick(later)][1..] == [];
    AllButMild(env, s, [Tick(later)], s.(now := later), zone, denied);
  }

  lemma TickBy(env: Env, s: System, w: Window, span: nat, denied: Demand) returns (t: System)
    requires Idle(s, w)
    ensures t == s.(now := s.now + span) && AllBut(env, s, [Tick(t.now)], t, w.zone, denied) && Idle(t, w)
  {
    hide Printable, AllBut;
    t := s.(now := s.now + span);
    Ticks(env, s, w.zone, denied, t.now);
  }

  lemma StartIdle(now: Time, w: Window)
    requires Printable(w)
    ensures Initial(Start(now, w.customer, -1, w.zone)) && Idle(Start(now, w.customer, -1, w.zone), w)
  {
  }

  // ── Four runs beside the path ──────────────────────────────────────────────────────

  // The first window of the zone.
  lemma FirstWindow(env: Env, now: Time, w: Window, id: Uuid, raw: Bytes, denied: Demand) returns (es: seq<Event>, t: System)
    requires Printable(w) && raw != "" && env.concurrency >= 1
    ensures AllBut(env, Start(now, w.customer, -1, w.zone), es, t, w.zone, denied) && Idle(t, w) && t.now == now
    ensures |t.rows| == 1 && Archived(t, 0) && t.rows[0].status == Done && t.rows[0].id == id && t.rows[0].createdAt == now
    ensures t.expirers == []
  {
    hide Printable, Idle, AllBut, Archived;
    StartIdle(now, w);
    es, t := ArchiveWindow(env, Start(now, w.customer, -1, w.zone), id, w, raw, true, denied);
  }

  lemma LookupFails(env: Env, now: Time, w: Window, id0: Uuid, id1: Uuid, raw: Bytes) returns (es: seq<Event>, t: System)
    requires Printable(w) && raw != "" && env.concurrency >= 1 && id0 != id1
    ensures AllBut(env, Start(now, w.customer, -1, w.zone), es, t, w.zone, Lookups) && Beside(t, w.zone, 1)
  {
    hide Printable, AllBut, LastDone;
    var s := Start(now, w.customer, -1, w.zone);
    var one, a := FirstWindow(env, now, w, id0, raw, Lookups);
    var b := TickBy(env, a, w, 1, Lookups);
    var two;
    two, t := ArchiveWindow(env, b, id1, w, raw, false, Lookups);
    AllButJoin(env, s, one, a, [Tick(b.now)], b, w.zone, Lookups);
    AllButJoin(env, s, one + [Tick(b.now)], b, two, t, w.zone, Lookups);
    es := one + [Tick(b.now)] + two;
    assert t.rows[0] == t.rows[..1][0];
  }

  // Of two done rows of one instant the one with the greater id is returned.
  lemma OlderById(rows: seq<Job>, zone: Uuid)
    requires |rows| == 2 && DoneIn(rows[0], zone) && DoneIn(rows[1], zone)
    requires rows[0].createdAt == rows[1].createdAt && IdLess(rows[1].id, rows[0].id)
    ensures LastDone(rows, zone) == Some(0)
  {
    if IdLess(rows[0].id, rows[1].id) {
      IdLessTransitive(rows[0].id, rows[1].id, rows[0].id);
      IdNotLess(rows[0].id);
    }
    assert rows[..1][..0] == [] && LastDone(rows[..1], zone) == Some(0);
  }

  lemma ClockStands(env: Env, now: Time, w: Window, id0: Uuid, id1: Uuid, id2: Uuid, raw: Bytes) returns (es: seq<Event>, t: System)
    requires Printable(w) && raw != "" && env.concurrency >= 1 && IdLess(id1, id0) && id0 != id1 && id0 != id2 && id1 != id2
    ensures AllBut(env, Start(now, w.customer, -1, w.zone), es, t, w.zone, ClockMoves) && Beside(t, w.zone, 2)
  {
    hide Printable, AllBut, LastDone, IdLess;
    var s := Start(now, w.customer, -1, w.zone);
    var one, a := FirstWindow(env, now, w, id0, raw, ClockMoves);
    var two, b := ArchiveWindow(env, a, id1, w, raw, true, ClockMoves);
    assert b.rows[0] == b.rows[..1][0];
    var three;
    three, t := ArchiveWindow(env, b, id2, w, raw, true, ClockMoves);
    AllButJoin(env, s, one, a, two, b, w.zone, ClockMoves);
    AllButJoin(env, s, one + two, b, three, t, w.zone, ClockMoves);
    es := one + two + three;
    OlderById(b.rows, w.zone);
    assert t.rows[1] == t.rows[..2][1];
  }

  lemma ListsRow(env: Env, s: System, w: Window, t: System)
    requires Idle(s, w) && |s.rows| == 1 && s.rows[0].status == Done && w.end < s.now - 395 * DAY
    requires t == s.(expirers := s.expirers + [Sweep(w.customer, s.now - 395 * DAY, [(0, s.rows[0].key)], false)])
    ensures Step(env, s, ExpireList(w.customer)) == Some(t)
  {
    assert s.rows[..0] == [];
    assert DueRows(s.rows, w.customer, s.now - 395 * DAY) == [(0, s.rows[0].key)];
  }

  // The newest done row expires in its turn.
  lemma Expires(env: Env, s: System, w: Window) returns (es: seq<Event>, t: System)
    requires Idle(s, w) && |s.rows| == 1 && Archived(s, 0) && s.rows[0].status == Done && s.expirers == []
    requires w.end < s.now - 395 * DAY
    ensures AllBut(env, s, es, t, w.zone, NewestKept) && Idle(t, w) && t.now == s.now && |t.rows| == 1
    ensures t.rows[0] == s.rows[0].(status := Expired)
  {
    hide Printable, Runs, Step;
    var a := s.(expirers := s.expirers + [Sweep(w.customer, s.now - 395 * DAY, [(0, s.rows[0].key)], false)]);
    assert Step(env, s, ExpireList(w.customer)) == Some(a) by { ListsRow(env, s, w, a); }
    Processors.ExpireDeleteIs(env, a, 0, [Success]);
    var b := Step(env, a, ExpireDelete(0, [Success])).value;
    Processors.ExpireMarkIs(env, b, 0, true);
    t := Step(env, b, ExpireMark(0, true)).value;
    es := [ExpireList(w.customer), ExpireDelete(0, [Success]), ExpireMark(0, true)];
    ThreeSteps(env, s, es[0], a, es[1], b, es[2], t);
    assert es == [es[0], es[1], es[2]];
    AllButMild(env, s, es, t, w.zone, NewestKept);
  }

  lemma NewestExpires(env: Env, now: Time, w: Window, id0: Uuid, id1: Uuid, raw: Bytes) returns (es: seq<Event>, t: System)
    requires Printable(w) && raw != "" && env.concurrency >= 1 && id0 != id1
    ensures AllBut(env, Start(now, w.customer, -1, w.zone), es, t, w.zone, NewestKept) && Beside(t, w.zone, 1)
  {
    hide Printable, AllBut, LastDone;
    var s := Start(now, w.customer, -1, w.zone);
    var one, a := FirstWindow(env, now, w, id0, raw, NewestKept);
    var b := TickBy(env, a, w, w.end + 396 * DAY, NewestKept);
    var two, d := Expires(env, b, w);
    var three;
    three, t := ArchiveWindow(env, d, id1, w, raw, true, NewestKept);
    AllButJoin(env, s, one, a, [Tick(b.now)], b, w.zone, NewestKept);
    AllButJoin(env, s, one + [Tick(b.now)], b, two, d, w.zone, NewestKept);
    AllButJoin(env, s, one + [Tick(b.now)] + two, d, three, t, w.zone, NewestKept);
    es := one + [Tick(b.now)] + two + three;
    assert t.rows[0] == t.rows[..1][0];
  }

  lemma AllButRuns(env: Env, s: System, es: seq<Event>, t: System, zone: Uuid, denied: Demand)
    requires AllBut(env, s, es, t, zone, denied)
    ensures Runs(env, s, es, t)
  {
  }

  lemma TasksOverlap(codec: Codec, now: Time, w: Window, id0: Uuid, id1: Uuid, raw: Bytes) returns (es: seq<Event>, t: System)
    requires Printable(w) && raw != "" && id0 != id1
    ensures AllBut(Env(codec, 2, 1), Start(now, w.customer, -1, w.zone), es, t, w.zone, OneAtATime) && Beside(t, w.zone, 1)
  {
    hide Printable, AllBut, LastDone, Step, Runs, Inv, Usage, MonthBegin, Mild;
    var env, s, d := Env(codec, 2, 1), Start(now, w.customer, -1, w.zone), OneAtATime;
    StartIdle(now, w);
    var a := NewTaskRun(env, s, id0, w);
    var b := a.(now := now + 1);
    assert [Admitted][..0] == [];
    var c := NewTaskRun(env, b, id1, w);
    Admits(env, s, id0, w, a, d);
    assert AllBut(env, a, [Tick(b.now)], b, w.zone, d) by { Ticks(env, a, w.zone, d, b.now); }
    Admits(env, b, id1, w, c, d);
    AllButJoin(env, s, Admitting(id0, w, 0), a, [Tick(b.now)], b, w.zone, d);
    AllButJoin(env, s, Admitting(id0, w, 0) + [Tick(b.now)], b, Admitting(id1, w, 1), c, w.zone, d);
    es := Admitting(id0, w, 0) + [Tick(b.now)] + Admitting(id1, w, 1);
    Lifecycle.InitialInv(env, s);
    AllButRuns(env, s, es, c, w.zone, d);
    Lifecycle.RunKeeps(env, s, es, c);
    var fork;
    fork, t := OverlapForks(env, c, 0, 1, raw, raw, [Success]);
    Lifecycle.RunKeeps(env, c, fork, t);
    AllButMild(env, c, fork, t, w.zone, d);
    AllButJoin(env, s, es, c, fork, t, w.zone, d);
    es := es + fork;
    assert Follows(c.rows[0], t.rows[0]) && Follows(c.rows[1], t.rows[1]);
  }

  /** None of the four follows from the others: for each there is a run from an empty start
      that denies only this one, and ends with an archived row of the zone that is not linked
      to the settled row before it. */
  lemma EachDemandIsNeeded(codec: Codec, denied: Demand, now: Time, w: Window, id0: Uuid, id1: Uuid, id2: Uuid, raw: Bytes)
    returns (es: seq<Event>, t: System, i: nat)
    requires Printable(w) && raw != "" && IdLess(id1, id0) && id0 != id1 && id0 != id2 && id1 != id2
    ensures Initial(Start(now, w.customer, -1, w.zone))
    ensures AllBut(Env(codec, 2, 1), Start(now, w.customer, -1, w.zone), es, t, w.zone, denied) && Beside(t, w.zone, i)
  {
    hide Printable, AllBut, Beside, IdLess;
    var env := Env(codec, 2, 1);
    i := if denied == ClockMoves then 2 else 1;
    match denied
    case OneAtATime => es, t := TasksOverlap(codec, now, w, id0, id1, raw);
    case ClockMoves => es, t := ClockStands(env, now, w, id0, id1, id2, raw);
    case Lookups => es, t := LookupFails(env, now, w, id0, id1, raw);
    case NewestKept => es, t := NewestExpires(env, now, w, id0, id1, raw);
  }
}

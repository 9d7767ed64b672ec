/** Runs from an empty start that reach what the other modules speak of: a fork of the
    chain, and an archive under every quota that admits one. */
module Reach {
  import opened Base
  import opened Calendar
  import opened Blob
  import opened ObjectStore
  import opened Pipeline
  import opened ChainPath
  import Lifecycle
  import Processors
  import Quota
  import Worm

  // One customer with one zone, and one empty provider.
  function Start(now: Time, c: Uuid, quota: int, z: Uuid): System {
    System(now, map[c := Customer(quota, 395, false)], map[z := Zone(c, false)], [], [], [map[]], [], [], 0, [])
  }

  // A task's row exists, and its customer and zone are there.
  predicate Ready(s: System, i: nat) {
    && At(s, i) && s.attempts[i] == Created
    && var w := s.rows[i].window;
       w.customer in s.customers && !s.customers[w.customer].deleted && w.zone in s.zones && !s.zones[w.zone].deleted
  }

  lemma ThreeSteps(env: Env, s: System, a: Event, m: System, b: Event, n: System, c: Event, t: System)
    requires Step(env, s, a) == Some(m) && Step(env, m, b) == Some(n) && Step(env, n, c) == Some(t)
    ensures Runs(env, s, [a, b, c], t)
  {
    hide Step;
    TwoSteps(env, s, a, m, b, n);
    Append(env, s, [a, b], n, c, t);
    assert [a, b] + [c] == [a, b, c];
  }

  // A task passes its checks.
  lemma AdmitRun(env: Env, s: System, i: nat) returns (es: seq<Event>)
    requires Ready(s, i)
    requires var c := s.rows[i].window.customer;
             s.customers[c].quota == -1 || Usage(s.rows, c, MonthBegin(s.now)) < s.customers[c].quota
    ensures Runs(env, s, es, WithStage(s, i, Admitted)) && es == [LoadCustomer(i), LoadZone(i), CheckQuota(i)]
  {
    hide Usage, MonthBegin;
    var quota := s.customers[s.rows[i].window.customer].quota;
    var loaded := WithStage(s, i, HasCustomer(quota));
    var zoned := WithStage(loaded, i, HasZone(quota));
    assert WithStage(zoned, i, Admitted) == WithStage(s, i, Admitted);
    ThreeSteps(env, s, LoadCustomer(i), loaded, LoadZone(i), zoned, CheckQuota(i), WithStage(s, i, Admitted));
    es := [LoadCustomer(i), LoadZone(i), CheckQuota(i)];
  }

  function Archiving(i: nat, raw: Bytes, answered: bool, faults: seq<Outcome>): seq<Event> {
    [Link(i, raw, answered), Store(i, faults), Finish(i, true)]
  }

  // What the closing write of an archive puts into its row.
  function ArchiveOf(env: Env, s: System, i: nat, raw: Bytes, answered: bool): Job
    requires i < |s.rows|
  {
    var j := s.rows[i];
    var parent := if answered then LastDone(s.rows, j.window.zone) else None;
    var chain := Worm.ChainHash(env.codec.sha, ParentHash(s.rows, parent), env.codec.sha(raw), j.id);
    DoneJob(j, Stored(raw, parent, chain, PrepareBlob(env.codec, raw, j.window, LogType(j.kind)).1), s.doneCount)
  }

  // A task with bytes archives them.
  lemma ArchiveRun(env: Env, s: System, i: nat, raw: Bytes, answered: bool, faults: seq<Outcome>) returns (t: System)
    requires At(s, i) && s.attempts[i] == Admitted && raw != "" && |faults| == |s.stores| && Success in faults
    ensures Runs(env, s, Archiving(i, raw, answered, faults), t)
    ensures var (blob, meta) := PrepareBlob(env.codec, raw, s.rows[i].window, LogType(s.rows[i].kind));
            && meta.key != "" && t.stores == PutAll(s.stores, faults, meta.key, blob) && t.puts == s.puts + [Put(meta.key, raw)]
            && t == s.(rows := s.rows[i := ArchiveOf(env, s, i, raw, answered)], attempts := s.attempts[i := Over],
                       stores := t.stores, puts := t.puts, doneCount := s.doneCount + 1)
    ensures |t.stores| == |s.stores|
  {
    hide PrepareBlob, LastDone, Step;
    Processors.LinkIs(env, s, i, raw, answered);
    var linked := Step(env, s, Link(i, raw, answered)).value;
    Processors.StoreIs(env, linked, i, faults);
    var stored := Step(env, linked, Store(i, faults)).value;
    Processors.FinishIs(env, stored, i, true);
    t := Step(env, stored, Finish(i, true)).value;
    assert s.attempts[i := linked.attempts[i]][i := stored.attempts[i]][i := Over] == s.attempts[i := Over];
    ThreeSteps(env, s, Link(i, raw, answered), linked, Store(i, faults), stored, Finish(i, true), t);
    Lifecycle.KeyNotEmpty(env.codec, raw, s.rows[i].window, LogType(s.rows[i].kind));
  }

  lemma CreateRun(env: Env, s: System, id: Uuid, w: Window) returns (t: System)
    requires Printable(w) && w.zone in s.zones && s.zones[w.zone].customer == w.customer
    requires InFlight(s.attempts) < env.concurrency && forall k :: 0 <= k < |s.rows| ==> s.rows[k].id != id
    ensures Step(env, s, Create(Pull, id, w)) == Some(t)
    ensures t == s.(rows := s.rows + [BlankJob(id, Pull, w, s.now)], attempts := s.attempts + [Created])
  {
    hide FourDigitYear, InFlight;
    t := Step(env, s, Create(Pull, id, w)).value;
  }

  function Admitting(id: Uuid, w: Window, i: nat): seq<Event> {
    [Create(Pull, id, w), LoadCustomer(i), LoadZone(i), CheckQuota(i)]
  }

  // A new task passes its checks.
  lemma NewTaskRun(env: Env, s: System, id: Uuid, w: Window) returns (t: System)
    requires Printable(w) && w.zone in s.zones && s.zones[w.zone] == Zone(w.customer, false) && |s.attempts| == |s.rows|
    requires w.customer in s.customers && !s.customers[w.customer].deleted
    requires var quota := s.customers[w.customer].quota; quota == -1 || Usage(s.rows, w.customer, MonthBegin(s.now)) < quota
    requires InFlight(s.attempts) < env.concurrency && forall k :: 0 <= k < |s.rows| ==> s.rows[k].id != id
    ensures Runs(env, s, Admitting(id, w, |s.rows|), t)
    ensures t == s.(rows := s.rows + [BlankJob(id, Pull, w, s.now)], attempts := s.attempts + [Admitted])
  {
    hide Step, Usage, MonthBegin, InFlight, Printable;
    var i, job := |s.rows|, BlankJob(id, Pull, w, s.now);
    var a := CreateRun(env, s, id, w);
    Quota.UsageAppend(s.rows, job, w.customer, MonthBegin(s.now));
    var admit := AdmitRun(env, a, i);
    t := WithStage(a, i, Admitted);
    assert (s.attempts + [Created])[i := Admitted] == s.attempts + [Admitted];
    assert Admitting(id, w, i)[1..] == admit;
  }

  // ── Forks ──────────────────────────────────────────────────────────────────────────

  // Two tasks of one zone are in flight and past their checks.
  lemma TwoAdmitted(codec: Codec, now: Time, v: Window, w: Window, idV: Uuid, idW: Uuid) returns (es: seq<Event>, t: System)
    requires Printable(v) && Printable(w) && v.customer == w.customer && v.zone == w.zone && idV != idW
    ensures Runs(Env(codec, 2, 1), Start(now, v.customer, -1, v.zone), es, t)
    ensures t == Start(now, v.customer, -1, v.zone).(rows := [BlankJob(idV, Pull, v, now), BlankJob(idW, Pull, w, now)],
                                                     attempts := [Admitted, Admitted])
  {
    hide FourDigitYear, Step, Printable, Usage, MonthBegin;
    var env, s := Env(codec, 2, 1), Start(now, v.customer, -1, v.zone);
    var a := CreateRun(env, s, idV, v);
    assert a.rows == [BlankJob(idV, Pull, v, now)] && a.attempts == [Created];
    assert InFlight([Created][..0]) == 0;
    var b := CreateRun(env, a, idW, w);
    assert b.rows == [BlankJob(idV, Pull, v, now), BlankJob(idW, Pull, w, now)] && b.attempts == [Created, Created];
    TwoSteps(env, s, Create(Pull, idV, v), a, Create(Pull, idW, w), b);
    var c := WithStage(b, 0, Admitted);
    t := WithStage(c, 1, Admitted);
    var first := AdmitRun(env, b, 0);
    var second := AdmitRun(env, c, 1);
    es := [Create(Pull, idV, v), Create(Pull, idW, w)];
    Join(env, s, es, b, first, c);
    Join(env, s, es + first, c, second, t);
    es := es + first + second;
  }

  /** Two workers are enough for a fork: from an empty start, two windows of one zone end as
      two archives that both continue Genesis. */
  lemma ForkHappens(codec: Codec, now: Time, v: Window, w: Window, idV: Uuid, idW: Uuid, rv: Bytes, rw: Bytes)
    returns (es: seq<Event>, t: System)
    requires Printable(v) && Printable(w) && v.customer == w.customer && v.zone == w.zone && idV != idW
    requires rv != "" && rw != ""
    ensures Initial(Start(now, v.customer, -1, v.zone)) && Runs(Env(codec, 2, 1), Start(now, v.customer, -1, v.zone), es, t)
    ensures |t.rows| == 2 && t.rows[0].status == t.rows[1].status == Done
    ensures t.rows[0].raw == rv && t.rows[1].raw == rw && t.rows[0].parent == t.rows[1].parent == None
  {
    hide FourDigitYear, Step, Printable, Runs, Inv;
    var env, s := Env(codec, 2, 1), Start(now, v.customer, -1, v.zone);
    var m;
    es, m := TwoAdmitted(codec, now, v, w, idV, idW);
    Lifecycle.InitialInv(env, s);
    Lifecycle.RunKeeps(env, s, es, m);
    var fork;
    fork, t := OverlapForks(env, m, 0, 1, rv, rw, [Success]);
    assert LastDone(m.rows, v.zone) == None;
    Join(env, s, es, m, fork, t);
    es := es + fork;
  }

  // ── Quotas ─────────────────────────────────────────────────────────────────────────

  ghost predicate Archives(codec: Codec, quota: int, env: Env, s: System, es: seq<Event>, t: System, c: Uuid, i: nat) {
    && env.codec == codec && Initial(s) && c in s.customers && s.customers[c].quota == quota
    && Runs(env, s, es, t) && i < |t.rows| && t.rows[i].window.customer == c && t.rows[i].key != ""
  }

  // In some run with some number of workers, a customer with this quota archives something.
  ghost predicate CanArchive(codec: Codec, quota: int) {
    exists env, s, es, t, c, i :: Archives(codec, quota, env, s, es, t, c, i)
  }

  const CUSTOMER: Uuid := "00000000-0000-0000-0000-000000000001"
  const ZONE: Uuid := "00000000-0000-0000-0000-000000000002"
  const JOB: Uuid := "00000000-0000-0000-0000-000000000003"

  lemma NoUsage(rows: seq<Job>, c: Uuid, since: int)
    requires |rows| == 1 && rows[0].status == Pending
    ensures Usage(rows, c, since) == 0
  {
    assert rows[..0] == [];
  }

  lemma TwoRuns(env: Env, s: System, e: Event, a: System, es: seq<Event>, b: System, fs: seq<Event>, t: System)
    requires Step(env, s, e) == Some(a) && Runs(env, a, es, b) && Runs(env, b, fs, t)
    ensures Runs(env, s, [e] + es + fs, t)
  {
    hide Step;
    assert [e][1..] == [];
    assert Runs(env, s, [e], a);
    Join(env, s, [e], a, es, b);
    Join(env, s, [e] + es, b, fs, t);
  }

  lemma QuotaAdmits(codec: Codec, quota: int)
    requires quota == -1 || quota >= 1
    ensures CanArchive(codec, quota)
  {
    hide Step, Runs, Usage, MonthBegin, PrepareBlob, PutAll, LastDone, Worm.ChainHash;
    var env, s, w := Env(codec, 1, 1), Start(0, CUSTOMER, quota, ZONE), Window(CUSTOMER, ZONE, 0, 0);
    assert Printable(w) by {
      assert DateAt(0) == DateOf(0) == Date(0, 1, 1);
    }
    var a := CreateRun(env, s, JOB, w);
    NoUsage(a.rows, CUSTOMER, MonthBegin(0));
    var admit := AdmitRun(env, a, 0);
    var archive := Archiving(0, "{}", true, [Success]);
    var t := ArchiveRun(env, WithStage(a, 0, Admitted), 0, "{}", true, [Success]);
    TwoRuns(env, s, Create(Pull, JOB, w), a, admit, WithStage(a, 0, Admitted), archive, t);
    assert Archives(codec, quota, env, s, [Create(Pull, JOB, w)] + admit + archive, t, CUSTOMER, 0);
  }

  /** A customer can archive something exactly when its quota is -1 or at least 1. */
  lemma ArchivesExactlyWhen(codec: Codec, quota: int)
    ensures CanArchive(codec, quota) <==> quota == -1 || quota >= 1
  {
    if quota == -1 || quota >= 1 {
      QuotaAdmits(codec, quota);
    } else {
      forall env, s, es, t, c, i | Archives(codec, quota, env, s, es, t, c, i) ensures false {
        hide RowsOk, ListsOk, Runs;
        Lifecycle.InitialInv(env, s);
        Quota.UnservedRun(env, s, es, t, c);
      }
    }
  }
}

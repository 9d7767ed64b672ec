/** The ceiling on a customer's monthly usage is reached, whatever the quota, the number of
    workers and the size of the archives. */
module Overshoot {
  import opened Base
  import opened Calendar
  import opened Blob
  import opened ObjectStore
  import opened Pipeline
  import opened Quota
  import opened Reach
  import Processors

  // ── Slots and months ───────────────────────────────────────────────────────────────

  lemma SlotMore(attempts: seq<Stage>, a: Stage)
    ensures InFlight(attempts + [a]) == InFlight(attempts) + if a.Over? then 0 else 1
  {
    assert (attempts + [a])[..|attempts|] == attempts;
  }

  lemma {:induction false} SlotFreed(attempts: seq<Stage>, i: nat)
    requires i < |attempts| && !attempts[i].Over?
    ensures InFlight(attempts[i := Over]) == InFlight(attempts) - 1
  {
    var n := |attempts| - 1;
    if i == n {
      assert attempts[i := Over][..n] == attempts[..n];
    } else {
      assert attempts[i := Over][..n] == attempts[..n][i := Over];
      SlotFreed(attempts[..n], i);
    }
  }

  lemma MonthHasBegun(now: Time)
    ensures MonthBegin(now) <= now
  {
    var day := UnixSecond(now) / DAY_SECONDS;
    MonthStartMonotone(day, day);
  }

  // ── One customer at one moment ─────────────────────────────────────────────────────

  predicate Distinct(ids: seq<Uuid>) {
    forall i, j :: 0 <= i < j < |ids| ==> ids[i] != ids[j]
  }

  // Tasks for one window are created one after another, with the given ids.
  ghost predicate Scene(env: Env, s: System, w: Window, quota: int, ids: seq<Uuid>, size: nat) {
    && Printable(w) && s.zones == map[w.zone := Zone(w.customer, false)] && Distinct(ids)
    && s.customers == map[w.customer := Customer(quota, 395, false)] && |s.stores| == 1 && Small(env, s.puts, size)
    && |s.attempts| == |s.rows| <= |ids|
    && forall i :: 0 <= i < |s.rows| ==>
         s.rows[i].id == ids[i] && s.rows[i].window == w && s.rows[i].createdAt == s.now
  }

  function Used(s: System, w: Window): nat {
    Usage(s.rows, w.customer, MonthBegin(s.now))
  }

  // From row n on, tasks have passed the check and written nothing.
  predicate Poised(s: System, n: nat) {
    |s.attempts| == |s.rows| && forall i :: n <= i < |s.rows| ==> s.attempts[i] == Admitted && s.rows[i].status == Pending
  }

  lemma AdmitNext(env: Env, s: System, w: Window, quota: int, ids: seq<Uuid>, size: nat) returns (es: seq<Event>, t: System)
    requires Scene(env, s, w, quota, ids, size) && |s.rows| < |ids| && InFlight(s.attempts) < env.concurrency
    requires Used(s, w) < quota
    ensures Runs(env, s, es, t) && Scene(env, t, w, quota, ids, size) && t.now == s.now && |t.rows| == |s.rows| + 1
    ensures Used(t, w) == Used(s, w) && InFlight(t.attempts) == InFlight(s.attempts) + 1
    ensures forall n :: 0 <= n <= |s.rows| && Poised(s, n) ==> Poised(t, n)
  {
    hide Runs, Printable, Small, InFlight, Usage, MonthBegin;
    t := NewTaskRun(env, s, ids[|s.rows|], w);
    es := Admitting(ids[|s.rows|], w, |s.rows|);
    UsageAppend(s.rows, t.rows[|s.rows|], w.customer, MonthBegin(s.now));
    SlotMore(s.attempts, Admitted);
  }

  lemma ArchiveNext(env: Env, s: System, w: Window, quota: int, ids: seq<Uuid>, size: nat, i: nat, raw: Bytes)
    returns (es: seq<Event>, t: System)
    requires Scene(env, s, w, quota, ids, size) && Poised(s, i) && i < |s.rows| && raw != "" && |env.codec.gzip(raw)| <= size
    ensures Runs(env, s, es, t) && Scene(env, t, w, quota, ids, size) && t.now == s.now && |t.rows| == |s.rows|
    ensures Used(t, w) == Used(s, w) + |env.codec.gzip(raw)| && InFlight(t.attempts) == InFlight(s.attempts) - 1
    ensures Poised(t, i + 1)
  {
    hide Runs, Printable, InFlight, Usage, MonthBegin, ObjectKey, PutAll, ParentHash, LastDone;
    t := ArchiveRun(env, s, i, raw, true, [Success]);
    es := Archiving(i, raw, true, [Success]);
    MonthHasBegun(s.now);
    UsageUpdate(s.rows, i, t.rows[i], w.customer, MonthBegin(s.now));
    SlotFreed(s.attempts, i);
  }

  // ── The run ────────────────────────────────────────────────────────────────────────

  // The compressed sizes of the archives together.
  function Total(codec: Codec, raws: seq<Bytes>): nat {
    if raws == [] then 0 else |codec.gzip(raws[0])| + Total(codec, raws[1..])
  }

  predicate Fit(codec: Codec, raws: seq<Bytes>, size: nat) {
    forall k :: 0 <= k < |raws| ==> raws[k] != "" && |codec.gzip(raws[k])| <= size
  }

  lemma Lengths(env: Env, s: System, w: Window, quota: int, ids: seq<Uuid>, size: nat)
    requires Scene(env, s, w, quota, ids, size)
    ensures Poised(s, |s.rows|)
  {
  }

  // One archive after the other.
  lemma {:induction false} Fill(env: Env, s: System, w: Window, quota: int, ids: seq<Uuid>, size: nat, raws: seq<Bytes>)
    returns (es: seq<Event>, t: System)
    requires Scene(env, s, w, quota, ids, size) && |s.rows| + |raws| <= |ids| && InFlight(s.attempts) == 0 < env.concurrency
    requires Fit(env.codec, raws, size) && Used(s, w) + Total(env.codec, raws) < quota
    ensures Runs(env, s, es, t) && Scene(env, t, w, quota, ids, size) && t.now == s.now && |t.rows| == |s.rows| + |raws|
    ensures Used(t, w) == Used(s, w) + Total(env.codec, raws) && InFlight(t.attempts) == 0
    decreases |raws|
  {
    hide Runs, Scene, InFlight, Used;
    if raws == [] {
      es, t := [], s;
      Processors.RunsNothing(env, s);
    } else {
      Lengths(env, s, w, quota, ids, size);
      var one, a := AdmitNext(env, s, w, quota, ids, size);
      var two, b := ArchiveNext(env, a, w, quota, ids, size, |s.rows|, raws[0]);
      var rest;
      rest, t := Fill(env, b, w, quota, ids, size, raws[1..]);
      Join(env, s, one, a, two, b);
      Join(env, s, one + two, b, rest, t);
      es := one + two + rest;
    }
  }

  // Every free worker passes the check.
  lemma {:induction false} AdmitMany(env: Env, s: System, w: Window, quota: int, ids: seq<Uuid>, size: nat, n: nat)
    returns (es: seq<Event>, t: System)
    requires Scene(env, s, w, quota, ids, size) && |s.rows| + n <= |ids| && InFlight(s.attempts) + n <= env.concurrency
    requires Used(s, w) < quota
    ensures Runs(env, s, es, t) && Scene(env, t, w, quota, ids, size) && t.now == s.now && |t.rows| == |s.rows| + n
    ensures Used(t, w) == Used(s, w) && forall k :: 0 <= k <= |s.rows| && Poised(s, k) ==> Poised(t, k)
    decreases n
  {
    hide Runs, Scene, InFlight, Used, Poised;
    if n == 0 {
      es, t := [], s;
      Processors.RunsNothing(env, s);
    } else {
      var one, a := AdmitNext(env, s, w, quota, ids, size);
      var rest;
      rest, t := AdmitMany(env, a, w, quota, ids, size, n - 1);
      Join(env, s, one, a, rest, t);
      es := one + rest;
    }
  }

  // Every admitted task archives the same bytes.
  lemma {:induction false} ArchiveMany(env: Env, s: System, w: Window, quota: int, ids: seq<Uuid>, size: nat, first: nat, raw: Bytes)
    returns (es: seq<Event>, t: System)
    requires Scene(env, s, w, quota, ids, size) && first <= |s.rows| && Poised(s, first)
    requires raw != "" && |env.codec.gzip(raw)| <= size
    ensures Runs(env, s, es, t) && Scene(env, t, w, quota, ids, size) && t.now == s.now
    ensures Used(t, w) == Used(s, w) + (|s.rows| - first) * |env.codec.gzip(raw)|
    decreases |s.rows| - first
  {
    hide Runs, Scene, InFlight, Used, Poised;
    if first == |s.rows| {
      es, t := [], s;
      Processors.RunsNothing(env, s);
    } else {
      var one, a := ArchiveNext(env, s, w, quota, ids, size, first, raw);
      var rest;
      rest, t := ArchiveMany(env, a, w, quota, ids, size, first + 1, raw);
      Join(env, s, one, a, rest, t);
      es := one + rest;
    }
  }

  lemma StartScene(env: Env, s: System, w: Window, quota: int, ids: seq<Uuid>, size: nat)
    requires Printable(w) && Distinct(ids) && s == Start(s.now, w.customer, quota, w.zone)
    ensures Initial(s) && Scene(env, s, w, quota, ids, size) && Used(s, w) == 0 && InFlight(s.attempts) == 0 && s.rows == []
  {
  }

  lemma SceneSmall(env: Env, s: System, w: Window, quota: int, ids: seq<Uuid>, size: nat)
    requires Scene(env, s, w, quota, ids, size)
    ensures Small(env, s.puts, size)
  {
  }

  /** Archives that add up to one byte less than the quota, and then one of the largest size
      from every worker at once, bring the usage to quota - 1 + concurrency * size: the
      ceiling is the least one. */
  lemma CeilingReached(env: Env, now: Time, w: Window, quota: int, ids: seq<Uuid>, raws: seq<Bytes>, largest: Bytes)
    returns (es: seq<Event>, t: System)
    requires Printable(w) && 1 <= quota && 1 <= env.concurrency && Distinct(ids) && |ids| == |raws| + env.concurrency
    requires largest != "" && Fit(env.codec, raws, |env.codec.gzip(largest)|) && Total(env.codec, raws) == quota - 1
    ensures var s, size := Start(now, w.customer, quota, w.zone), |env.codec.gzip(largest)|;
            && Initial(s) && w.customer in s.customers && s.customers[w.customer].quota == quota
            && Runs(env, s, es, t) && Small(env, t.puts, size)
            && Usage(t.rows, w.customer, MonthBegin(t.now)) == quota - 1 + env.concurrency * size
  {
    hide Runs, Scene, InFlight, Poised, Printable, Usage, MonthBegin, Small;
    var s, size := Start(now, w.customer, quota, w.zone), |env.codec.gzip(largest)|;
    StartScene(env, s, w, quota, ids, size);
    var fill, a := Fill(env, s, w, quota, ids, size, raws);
    Lengths(env, a, w, quota, ids, size);
    var admit, b := AdmitMany(env, a, w, quota, ids, size, env.concurrency);
    var archive;
    archive, t := ArchiveMany(env, b, w, quota, ids, size, |raws|, largest);
    SceneSmall(env, t, w, quota, ids, size);
    Join(env, s, fill, a, admit, b);
    Join(env, s, fill + admit, b, archive, t);
    es := fill + admit + archive;
  }
}

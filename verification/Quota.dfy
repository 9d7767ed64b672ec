/** The monthly quota is checked before the bytes arrive and counted after they are
    stored. How far concurrent attempts can overshoot it. */
module Quota {
  import opened Base
  import opened Calendar
  import opened Blob
  import opened ObjectStore
  import opened Pipeline
  import Lifecycle
  import Uploads

  // An attempt that has passed the quota check and may still add bytes.
  predicate Past(a: Stage) {
    a.Admitted? || a.Linked? || a.Stored?
  }

  function PastOf(j: Job, a: Stage, customer: Uuid): nat {
    if j.window.customer == customer && Past(a) then 1 else 0
  }

  function PastCheck(rows: seq<Job>, attempts: seq<Stage>, customer: Uuid): nat
    requires |rows| == |attempts|
  {
    if rows == [] then 0
    else
      var n := |rows| - 1;
      PastCheck(rows[..n], attempts[..n], customer) + PastOf(rows[n], attempts[n], customer)
  }

  lemma {:induction false} UsageUpdate(rows: seq<Job>, i: nat, j: Job, customer: Uuid, since: int)
    requires i < |rows|
    ensures Usage(rows[i := j], customer, since) + Counted(rows[i], customer, since) ==
            Usage(rows, customer, since) + Counted(j, customer, since)
  {
    var n := |rows| - 1;
    if i == n {
      assert rows[i := j][..n] == rows[..n];
    } else {
      assert rows[i := j][..n] == rows[..n][i := j];
      UsageUpdate(rows[..n], i, j, customer, since);
    }
  }

  lemma UsageAppend(rows: seq<Job>, j: Job, customer: Uuid, since: int)
    ensures Usage(rows + [j], customer, since) == Usage(rows, customer, since) + Counted(j, customer, since)
  {
    assert (rows + [j])[..|rows|] == rows;
  }

  lemma {:induction false} UsageLater(rows: seq<Job>, customer: Uuid, a: int, b: int)
    requires a <= b
    ensures Usage(rows, customer, b) <= Usage(rows, customer, a)
  {
    if rows != [] {
      UsageLater(rows[..|rows| - 1], customer, a, b);
    }
  }

  lemma {:induction false} PastUpdate(rows: seq<Job>, attempts: seq<Stage>, i: nat, j: Job, a: Stage, customer: Uuid)
    requires |rows| == |attempts| && i < |rows|
    ensures PastCheck(rows[i := j], attempts[i := a], customer) + PastOf(rows[i], attempts[i], customer) ==
            PastCheck(rows, attempts, customer) + PastOf(j, a, customer)
  {
    var n := |rows| - 1;
    if i == n {
      assert rows[i := j][..n] == rows[..n] && attempts[i := a][..n] == attempts[..n];
    } else {
      assert rows[i := j][..n] == rows[..n][i := j] && attempts[i := a][..n] == attempts[..n][i := a];
      PastUpdate(rows[..n], attempts[..n], i, j, a, customer);
    }
  }

  lemma PastAppend(rows: seq<Job>, attempts: seq<Stage>, j: Job, a: Stage, customer: Uuid)
    requires |rows| == |attempts|
    ensures PastCheck(rows + [j], attempts + [a], customer) == PastCheck(rows, attempts, customer) + PastOf(j, a, customer)
  {
    assert (rows + [j])[..|rows|] == rows && (attempts + [a])[..|rows|] == attempts;
  }

  lemma {:induction false} PastInFlight(rows: seq<Job>, attempts: seq<Stage>, customer: Uuid)
    requires |rows| == |attempts|
    ensures PastCheck(rows, attempts, customer) <= InFlight(attempts)
    decreases |rows|
  {
    if rows != [] {
      PastInFlight(rows[..|rows| - 1], attempts[..|rows| - 1], customer);
    }
  }

  lemma {:induction false} NoneInFlight(attempts: seq<Stage>)
    requires forall i :: 0 <= i < |attempts| ==> attempts[i].Over?
    ensures InFlight(attempts) == 0
  {
    if attempts != [] {
      NoneInFlight(attempts[..|attempts| - 1]);
    }
  }

  lemma {:induction false} InFlightUpdate(attempts: seq<Stage>, i: nat, a: Stage)
    requires i < |attempts| && !attempts[i].Over?
    ensures InFlight(attempts[i := a]) <= InFlight(attempts)
  {
    var n := |attempts| - 1;
    if i == n {
      assert attempts[i := a][..n] == attempts[..n];
    } else {
      assert attempts[i := a][..n] == attempts[..n][i := a];
      InFlightUpdate(attempts[..n], i, a);
    }
  }

  lemma MonthMoves(a: Time, b: Time)
    requires a <= b
    ensures MonthBegin(a) <= MonthBegin(b)
  {
    var m, n := UnixSecond(a) / DAY_SECONDS, UnixSecond(b) / DAY_SECONDS;
    assert m <= n;
    MonthStartMonotone(m, n);
  }

  // No upload so far was larger than the bound.
  ghost predicate Small(env: Env, puts: seq<Put>, size: nat) {
    forall p :: p in puts ==> |env.codec.gzip(p.raw)| <= size
  }

  // What a running attempt of the customer remembers: the quota it read, and an object
  // that was uploaded.
  predicate Remembers(env: Env, s: System, j: Job, a: Stage, quota: int) {
    && (a.HasCustomer? || a.HasZone? ==> a.quota == quota)
    && (a.Stored? ==> Put(a.meta.key, a.raw) in s.puts)
  }

  ghost predicate Memory(env: Env, s: System, customer: Uuid) {
    && customer in s.customers
    && |s.attempts| == |s.rows|
    && InFlight(s.attempts) <= env.concurrency
    && forall i :: 0 <= i < |s.rows| && s.rows[i].window.customer == customer ==>
         Remembers(env, s, s.rows[i], s.attempts[i], s.customers[customer].quota)
  }

  function Load(s: System, customer: Uuid, size: nat): int
    requires |s.attempts| == |s.rows|
  {
    Usage(s.rows, customer, MonthBegin(s.now)) + size * PastCheck(s.rows, s.attempts, customer)
  }

  lemma GlobalsMove(env: Env, s: System, e: Event, t: System, customer: Uuid)
    requires Step(env, s, e) == Some(t) && customer in s.customers
    ensures s.now <= t.now && (t.now == s.now || e.Tick?)
    ensures customer in t.customers && t.customers[customer].quota == s.customers[customer].quota
    ensures s.puts <= t.puts
  {
    hide PrepareBlob, FourDigitYear, PutAll, DeleteAll, GetFirst, LastDone, Usage, InFlight, DueRows, NewestKeyed, MonthBegin;
  }

  lemma FlightCreate(env: Env, s: System, e: Event, t: System)
    requires e.Create? && Step(env, s, e) == Some(t)
    ensures InFlight(t.attempts) <= env.concurrency
  {
    assert t.attempts[..|s.attempts|] == s.attempts;
  }

  lemma FlightStep(env: Env, s: System, e: Event, t: System)
    requires Inv(env, s) && InFlight(s.attempts) <= env.concurrency && Step(env, s, e) == Some(t)
    ensures InFlight(t.attempts) <= env.concurrency
  {
    hide PrepareBlob, FourDigitYear, RowShape, StageShape, ListsOk, Follows, PutAll, DeleteAll, GetFirst, LastDone, Usage,
         DueRows, NewestKeyed, MonthBegin, InFlight, Step;
    Lifecycle.Frame(env, s, e, t);
    if Moved(e).Some? {
      assert t.attempts == s.attempts[e.i := t.attempts[e.i]];
      InFlightUpdate(s.attempts, e.i, t.attempts[e.i]);
    } else if e.Create? {
      assert t.attempts == s.attempts + [Created];
      FlightCreate(env, s, e, t);
    } else {
      assert t.attempts == s.attempts;
    }
  }

  lemma MoveMemory(env: Env, s: System, e: Event, t: System, customer: Uuid)
    requires Step(env, s, e) == Some(t) && Moved(e).Some? && customer in s.customers && At(s, e.i)
    requires s.rows[e.i].window.customer == customer
    requires Remembers(env, s, s.rows[e.i], s.attempts[e.i], s.customers[customer].quota)
    ensures e.i < |t.attempts| && Remembers(env, t, s.rows[e.i], t.attempts[e.i], s.customers[customer].quota)
  {
    hide PutAll, LastDone, Usage, MonthBegin, KeyTail;
  }

  lemma RememberedStep(env: Env, s: System, e: Event, t: System, customer: Uuid, i: nat)
    requires Inv(env, s) && Memory(env, s, customer) && Step(env, s, e) == Some(t)
    requires i < |s.rows| && i < |t.attempts| && i < |t.rows| && t.rows[i].window.customer == customer
    requires RowsFollow(s.rows, t.rows) && Lifecycle.Framed(s, e, t)
    requires customer in t.customers && t.customers[customer].quota == s.customers[customer].quota && s.puts <= t.puts
    ensures Remembers(env, t, t.rows[i], t.attempts[i], t.customers[customer].quota)
  {
    hide PrepareBlob, FourDigitYear, RowShape, StageShape, ListsOk, PutAll, LastDone, Usage, InFlight, MonthBegin;
    assert Follows(s.rows[i], t.rows[i]);
    assert Remembers(env, s, s.rows[i], s.attempts[i], s.customers[customer].quota);
    if Moved(e) == Some(i) {
      MoveMemory(env, s, e, t, customer);
    }
  }

  lemma MemoryStep(env: Env, s: System, e: Event, t: System, customer: Uuid)
    requires Inv(env, s) && Memory(env, s, customer) && Step(env, s, e) == Some(t)
    ensures Memory(env, t, customer)
  {
    hide PrepareBlob, FourDigitYear, RowsOk, ListsOk, Follows, PutAll, DeleteAll, GetFirst, LastDone, Usage,
         DueRows, NewestKeyed, MonthBegin;
    GlobalsMove(env, s, e, t, customer);
    Lifecycle.StepKeeps(env, s, e, t);
    Lifecycle.Frame(env, s, e, t);
    forall i | 0 <= i < |t.rows| && t.rows[i].window.customer == customer
      ensures Remembers(env, t, t.rows[i], t.attempts[i], t.customers[customer].quota)
    {
      if i < |s.rows| {
        RememberedStep(env, s, e, t, customer, i);
      }
    }
    FlightStep(env, s, e, t);
  }

  // ── The bound ──────────────────────────────────────────────────────────────────────

  // A moved attempt trades its place past the check for at most one object.
  lemma MoveWeight(env: Env, s: System, e: Event, t: System, customer: Uuid, size: nat)
    requires Inv(env, s) && Memory(env, s, customer) && Step(env, s, e) == Some(t) && Moved(e).Some?
    requires Small(env, s.puts, size) && !e.CheckQuota?
    ensures e.i < |s.rows| == |t.rows| == |t.attempts|
    ensures Counted(t.rows[e.i], customer, MonthBegin(s.now)) + size * PastOf(t.rows[e.i], t.attempts[e.i], customer) <=
            size * PastOf(s.rows[e.i], s.attempts[e.i], customer)
  {
    hide FourDigitYear, ListsOk, PutAll, LastDone, Usage, MonthBegin, InFlight, ObjectKey;
    var j, a := s.rows[e.i], s.attempts[e.i];
    assert RowShape(env, j) && StageShape(env, j, a);
    if j.window.customer == customer {
      assert Remembers(env, s, j, a, s.customers[customer].quota);
    }
  }

  lemma CheckFacts(env: Env, s: System, e: Event, t: System)
    requires Step(env, s, e) == Some(t)
    ensures e.CheckQuota? ==> t.rows == s.rows
  {
  }

  lemma Distribute(size: nat, a: nat, b: nat, c: nat, d: nat)
    requires a + b == c + d
    ensures size * a + size * b == size * c + size * d
  {
    assert size * (a + b) == size * (c + d);
  }

  lemma MovedLoad(env: Env, s: System, e: Event, t: System, customer: Uuid, size: nat)
    requires Inv(env, s) && Memory(env, s, customer) && Step(env, s, e) == Some(t) && Moved(e).Some?
    requires Small(env, s.puts, size) && |t.attempts| == |t.rows|
    ensures Load(t, customer, size) <= Load(s, customer, size) || e.CheckQuota?
    ensures e.CheckQuota? ==> Usage(t.rows, customer, MonthBegin(t.now)) == Usage(s.rows, customer, MonthBegin(s.now))
    ensures e.CheckQuota? && s.rows[e.i].window.customer != customer ==> Load(t, customer, size) == Load(s, customer, size)
  {
    hide PrepareBlob, FourDigitYear, Step, RowShape, ListsOk, Usage, PastCheck, InFlight, MonthBegin, Remembers, Small;
    Lifecycle.Frame(env, s, e, t);
    GlobalsMove(env, s, e, t, customer);
    CheckFacts(env, s, e, t);
    var i := e.i;
    var since := MonthBegin(s.now);
    assert t.rows == s.rows[i := t.rows[i]] && t.attempts == s.attempts[i := t.attempts[i]];
    UsageUpdate(s.rows, i, t.rows[i], customer, since);
    PastUpdate(s.rows, s.attempts, i, t.rows[i], t.attempts[i], customer);
    assert StageShape(env, s.rows[i], s.attempts[i]);
    assert Counted(s.rows[i], customer, since) == 0;
    if !e.CheckQuota? {
      MoveWeight(env, s, e, t, customer, size);
      var p, p' := PastCheck(s.rows, s.attempts, customer), PastCheck(t.rows, t.attempts, customer);
      Distribute(size, p', PastOf(s.rows[i], s.attempts[i], customer), p, PastOf(t.rows[i], t.attempts[i], customer));
    }
  }

  lemma OtherLoad(env: Env, s: System, e: Event, t: System, customer: Uuid, size: nat)
    requires Inv(env, s) && Memory(env, s, customer) && Step(env, s, e) == Some(t) && Moved(e).None?
    requires |t.attempts| == |t.rows|
    ensures Load(t, customer, size) <= Load(s, customer, size)
  {
    hide PrepareBlob, FourDigitYear, RowShape, StageShape, ListsOk, InFlight, MonthBegin, Remembers, Step, Usage, PastCheck;
    Lifecycle.Frame(env, s, e, t);
    Lifecycle.StepKeeps(env, s, e, t);
    GlobalsMove(env, s, e, t, customer);
    MonthMoves(s.now, t.now);
    var since, since' := MonthBegin(s.now), MonthBegin(t.now);
    UsageLater(t.rows, customer, since, since');
    if e.Create? {
      assert t.rows == s.rows + [t.rows[|s.rows|]] && t.attempts == s.attempts + [Created];
      UsageAppend(s.rows, t.rows[|s.rows|], customer, since);
      PastAppend(s.rows, s.attempts, t.rows[|s.rows|], Created, customer);
    } else {
      assert t.attempts == s.attempts;
      if Written(s, e).Some? {
        var k := Written(s, e).value;
        assert t.rows == s.rows[k := t.rows[k]] && t.attempts == s.attempts[k := s.attempts[k]];
        assert Follows(s.rows[k], t.rows[k]);
        UsageUpdate(s.rows, k, t.rows[k], customer, since);
        PastUpdate(s.rows, s.attempts, k, t.rows[k], s.attempts[k], customer);
      } else {
        assert t.rows == s.rows;
      }
    }
  }

  function Ceiling(env: Env, quota: int, size: nat): int {
    quota - 1 + env.concurrency * size
  }

  lemma QuotaRead(env: Env, s: System, e: Event, customer: Uuid)
    requires e.CheckQuota? && Step(env, s, e).Some? && customer in s.customers
    requires s.rows[e.i].window.customer == customer
    requires Remembers(env, s, s.rows[e.i], s.attempts[e.i], s.customers[customer].quota)
    ensures s.customers[customer].quota == -1 || Usage(s.rows, customer, MonthBegin(s.now)) < s.customers[customer].quota
  {
    hide Usage, MonthBegin;
  }

  lemma Scale(size: nat, a: nat, b: nat)
    requires a <= b
    ensures size * a <= b * size
  {
  }

  lemma LoadStep(env: Env, s: System, e: Event, t: System, customer: Uuid, size: nat)
    requires Inv(env, s) && Memory(env, s, customer) && Step(env, s, e) == Some(t)
    requires Small(env, s.puts, size)
    requires 1 <= s.customers[customer].quota && Load(s, customer, size) <= Ceiling(env, s.customers[customer].quota, size)
    ensures Memory(env, t, customer)
    ensures Load(t, customer, size) <= Ceiling(env, s.customers[customer].quota, size)
  {
    hide PrepareBlob, FourDigitYear, Inv, Usage, MonthBegin, PutAll, LastDone, Remembers, CreateStep, LinkStep, StoreStep,
         VerifyStep, Small;
    MemoryStep(env, s, e, t, customer);
    if Moved(e).None? {
      OtherLoad(env, s, e, t, customer, size);
    } else {
      MovedLoad(env, s, e, t, customer, size);
      if e.CheckQuota? && s.rows[e.i].window.customer == customer {
        assert Remembers(env, s, s.rows[e.i], s.attempts[e.i], s.customers[customer].quota);
        QuotaRead(env, s, e, customer);
        PastInFlight(t.rows, t.attempts, customer);
        Scale(size, PastCheck(t.rows, t.attempts, customer), env.concurrency);
      }
    }
  }

  lemma CustomerKnown(env: Env, s: System, customer: Uuid)
    requires Memory(env, s, customer)
    ensures customer in s.customers
  {
  }

  lemma SmallPrefix(env: Env, a: seq<Put>, b: seq<Put>, size: nat)
    requires a <= b && Small(env, b, size)
    ensures Small(env, a, size)
  {
  }

  lemma {:induction false} LoadRun(env: Env, s: System, es: seq<Event>, t: System, customer: Uuid, size: nat)
    requires Inv(env, s) && Memory(env, s, customer) && Runs(env, s, es, t)
    requires Small(env, t.puts, size)
    requires 1 <= s.customers[customer].quota && Load(s, customer, size) <= Ceiling(env, s.customers[customer].quota, size)
    ensures Memory(env, t, customer) && Load(t, customer, size) <= Ceiling(env, s.customers[customer].quota, size)
    decreases |es|
  {
    hide Inv, Step, Load, Ceiling, Memory, Small;
    if es != [] {
      var next := Step(env, s, es[0]).value;
      Lifecycle.StepKeeps(env, s, es[0], next);
      CustomerKnown(env, s, customer);
      GlobalsMove(env, s, es[0], next, customer);
      Uploads.PutsGrow(env, s, es, t);
      SmallPrefix(env, s.puts, t.puts, size);
      LoadStep(env, s, es[0], next, customer, size);
      LoadRun(env, next, es[1..], t, customer, size);
    }
  }

  lemma InitialLoad(env: Env, s: System, customer: Uuid, size: nat)
    requires Initial(s) && customer in s.customers && 1 <= s.customers[customer].quota
    ensures Memory(env, s, customer) && Load(s, customer, size) <= Ceiling(env, s.customers[customer].quota, size)
  {
    assert 0 <= env.concurrency * size;
  }

  lemma UsageInLoad(s: System, customer: Uuid, size: nat)
    requires |s.attempts| == |s.rows|
    ensures Usage(s.rows, customer, MonthBegin(s.now)) <= Load(s, customer, size)
  {
    hide Usage, PastCheck, MonthBegin;
    Scale(size, 0, PastCheck(s.rows, s.attempts, customer));
  }

  lemma MemoryLength(env: Env, s: System, customer: Uuid)
    requires Memory(env, s, customer)
    ensures |s.attempts| == |s.rows|
  {
  }

  /** With at most env.concurrency attempts at a time and archives of at most size bytes,
      the usage of a customer with a quota of at least 1 never exceeds
      quota - 1 + concurrency * size, over every run. */
  lemma OvershootBound(env: Env, s: System, es: seq<Event>, t: System, customer: Uuid, size: nat)
    requires Initial(s) && Runs(env, s, es, t) && customer in s.customers && 1 <= s.customers[customer].quota
    requires Small(env, t.puts, size)
    ensures Usage(t.rows, customer, MonthBegin(t.now)) <= s.customers[customer].quota - 1 + env.concurrency * size
  {
    hide Inv, Step, Runs, Memory, Load, Small, Usage, MonthBegin;
    Lifecycle.InitialInv(env, s);
    InitialLoad(env, s, customer, size);
    MemoryLength(env, s, customer);
    LoadRun(env, s, es, t, customer, size);
    MemoryLength(env, t, customer);
    UsageInLoad(t, customer, size);
  }

  // ── What the month's usage is ──────────────────────────────────────────────────────

  predicate SameMonth(a: Time, b: Time) {
    DateAt(a).year == DateAt(b).year && DateAt(a).month == DateAt(b).month
  }

  // The bytes of the customer's jobs that are done and were created in the current month.
  function MonthTotal(rows: seq<Job>, customer: Uuid, now: Time): nat {
    if rows == [] then 0
    else
      var j := rows[|rows| - 1];
      MonthTotal(rows[..|rows| - 1], customer, now) +
      if j.window.customer == customer && j.status == Done && SameMonth(j.createdAt, now) then j.bytes else 0
  }

  lemma DayOf(t: Time, day: nat)
    ensures day * DAY <= t <==> day <= UnixSecond(t) / DAY_SECONDS
  {
    var second := UnixSecond(t);
    assert second * SECOND <= t < (second + 1) * SECOND;
    assert second / DAY_SECONDS * DAY_SECONDS <= second < (second / DAY_SECONDS + 1) * DAY_SECONDS;
  }

  /** A row is counted exactly when its creation date has the year and month of now. */
  lemma CreatedThisMonth(created: Time, now: Time)
    requires created <= now
    ensures MonthBegin(now) <= created <==> SameMonth(created, now)
  {
    var m, n := UnixSecond(created) / DAY_SECONDS, UnixSecond(now) / DAY_SECONDS;
    assert m <= n;
    InMonthExactlyWhen(m, n);
    MonthStartIsFirst(n);
    hide MonthStart;
    DayOf(created, MonthStart(n));
  }

  lemma {:induction false} UsageIsMonthTotal(rows: seq<Job>, customer: Uuid, now: Time)
    requires forall k :: 0 <= k < |rows| ==> rows[k].createdAt <= now
    ensures Usage(rows, customer, MonthBegin(now)) == MonthTotal(rows, customer, now)
  {
    hide MonthBegin, SameMonth;
    if rows != [] {
      UsageIsMonthTotal(rows[..|rows| - 1], customer, now);
      CreatedThisMonth(rows[|rows| - 1].createdAt, now);
    }
  }

  ghost predicate CreatedByNow(s: System) {
    |s.attempts| == |s.rows| && forall k :: 0 <= k < |s.rows| ==> s.rows[k].createdAt <= s.now
  }

  lemma TimeMoves(env: Env, s: System, e: Event, t: System)
    requires Step(env, s, e) == Some(t)
    ensures s.now <= t.now
  {
    hide PrepareBlob, FourDigitYear, PutAll, DeleteAll, GetFirst, LastDone, Usage, InFlight, DueRows, NewestKeyed, MonthBegin;
  }

  lemma CreatedStep(env: Env, s: System, e: Event, t: System)
    requires Inv(env, s) && CreatedByNow(s) && Step(env, s, e) == Some(t)
    ensures CreatedByNow(t)
  {
    hide Inv, Step;
    Lifecycle.Frame(env, s, e, t);
    Lifecycle.StepKeeps(env, s, e, t);
    TimeMoves(env, s, e, t);
    forall k | 0 <= k < |t.rows| ensures t.rows[k].createdAt <= t.now {
      if k < |s.rows| {
        assert Follows(s.rows[k], t.rows[k]);
      }
    }
  }

  lemma {:induction false} CreatedRun(env: Env, s: System, es: seq<Event>, t: System)
    requires Inv(env, s) && CreatedByNow(s) && Runs(env, s, es, t)
    ensures CreatedByNow(t)
    decreases |es|
  {
    hide Inv, Step, CreatedByNow;
    if es != [] {
      var next := Step(env, s, es[0]).value;
      Lifecycle.StepKeeps(env, s, es[0], next);
      CreatedStep(env, s, es[0], next);
      CreatedRun(env, next, es[1..], t);
    }
  }

  /** In every reachable state the quota check lets a task that has read its owners through
      exactly when the quota is -1 or the bytes of the customer's jobs of the current month
      that are done stay under it. */
  lemma QuotaIsMonthly(env: Env, s: System, es: seq<Event>, t: System, i: nat)
    requires Initial(s) && Runs(env, s, es, t) && i < |t.rows| && i < |t.attempts| && t.attempts[i].HasZone?
    ensures var quota, c := t.attempts[i].quota, t.rows[i].window.customer;
            Step(env, t, CheckQuota(i)).Some? <==> quota == -1 || MonthTotal(t.rows, c, t.now) < quota
  {
    Lifecycle.InitialInv(env, s);
    CreatedRun(env, s, es, t);
    UsageIsMonthTotal(t.rows, t.rows[i].window.customer, t.now);
    hide MonthBegin, Usage, MonthTotal, Runs;
  }

  // ── Customers whose quota admits nothing ───────────────────────────────────────────

  // No job of the customer ever got past the quota check, uploaded or archived anything.
  ghost predicate Unserved(s: System, customer: Uuid) {
    && |s.attempts| == |s.rows| && Uploads.Pulls(s.puts, customer) == 0
    && forall i :: 0 <= i < |s.rows| && s.rows[i].window.customer == customer ==>
         s.rows[i].key == "" && !Past(s.attempts[i])
  }

  lemma UnservedMove(env: Env, s: System, e: Event, t: System, customer: Uuid)
    requires Inv(env, s) && Step(env, s, e) == Some(t) && Moved(e).Some? && customer in s.customers
    requires e.i < |s.rows| == |s.attempts| && s.rows[e.i].window.customer == customer
    requires Remembers(env, s, s.rows[e.i], s.attempts[e.i], s.customers[customer].quota)
    requires s.customers[customer].quota < 1 && s.customers[customer].quota != -1
    requires s.rows[e.i].key == "" && !Past(s.attempts[e.i])
    ensures e.i < |t.rows| == |t.attempts| && t.rows[e.i].key == "" && !Past(t.attempts[e.i])
  {
    hide PrepareBlob, FourDigitYear, RowShape, StageShape, ListsOk, PutAll, LastDone, InFlight, MonthBegin, Usage;
  }

  lemma UnservedStep(env: Env, s: System, e: Event, t: System, customer: Uuid)
    requires Inv(env, s) && Memory(env, s, customer) && Unserved(s, customer) && Step(env, s, e) == Some(t)
    requires s.customers[customer].quota < 1 && s.customers[customer].quota != -1
    ensures Unserved(t, customer)
  {
    hide PrepareBlob, FourDigitYear, RowShape, StageShape, DueSweep, EraseSweep, InFlight, MonthBegin, Usage, Step;
    Lifecycle.Frame(env, s, e, t);
    Lifecycle.StepKeeps(env, s, e, t);
    Uploads.PullsStep(env, s, e, t, customer);
    if e.Store? {
      Uploads.PutsStep(env, s, e, t);
      assert Past(s.attempts[e.i]);
    }
    forall i | 0 <= i < |t.rows| && t.rows[i].window.customer == customer
      ensures t.rows[i].key == "" && !Past(t.attempts[i])
    {
      if i < |s.rows| {
        assert Follows(s.rows[i], t.rows[i]);
        assert Remembers(env, s, s.rows[i], s.attempts[i], s.customers[customer].quota);
        if Moved(e) == Some(i) {
          UnservedMove(env, s, e, t, customer);
        } else if Written(s, e) == Some(i) {
          assert Settled(s.rows[i]);
        }
      }
    }
  }

  lemma {:induction false} UnservedRun(env: Env, s: System, es: seq<Event>, t: System, customer: Uuid)
    requires Inv(env, s) && Memory(env, s, customer) && Unserved(s, customer) && Runs(env, s, es, t)
    requires s.customers[customer].quota < 1 && s.customers[customer].quota != -1
    ensures Unserved(t, customer)
    decreases |es|
  {
    hide Inv, Step, Memory, Unserved;
    if es != [] {
      var next := Step(env, s, es[0]).value;
      Lifecycle.StepKeeps(env, s, es[0], next);
      CustomerKnown(env, s, customer);
      GlobalsMove(env, s, es[0], next, customer);
      MemoryStep(env, s, es[0], next, customer);
      UnservedStep(env, s, es[0], next, customer);
      UnservedRun(env, next, es[1..], t, customer);
    }
  }

  // Zones belong to registered customers, and rows to the customers of their zones.
  ghost predicate Registered(env: Env, s: System) {
    && |s.attempts| == |s.rows| && InFlight(s.attempts) <= env.concurrency
    && (forall z :: z in s.zones ==> s.zones[z].customer in s.customers)
    && (forall i :: 0 <= i < |s.rows| ==> s.rows[i].window.customer in s.customers)
    && (forall c: Uuid :: c !in s.customers ==> Uploads.Pulls(s.puts, c) == 0)
  }

  lemma ZonesStep(env: Env, s: System, e: Event, t: System)
    requires Step(env, s, e) == Some(t) && forall z :: z in s.zones ==> s.zones[z].customer in s.customers
    ensures s.customers.Keys <= t.customers.Keys
    ensures forall z :: z in t.zones ==> t.zones[z].customer in t.customers
    ensures e.Create? ==> e.window.customer in s.customers
  {
    hide PrepareBlob, FourDigitYear, PutAll, DeleteAll, GetFirst, LastDone, Usage, InFlight, DueRows, NewestKeyed, MonthBegin;
  }

  lemma RegisteredStep(env: Env, s: System, e: Event, t: System)
    requires Inv(env, s) && Registered(env, s) && Step(env, s, e) == Some(t)
    ensures Registered(env, t)
  {
    hide PrepareBlob, FourDigitYear, RowsOk, ListsOk, InFlight, PutAll, DeleteAll, GetFirst, LastDone, Usage,
         DueRows, NewestKeyed, MonthBegin;
    FlightStep(env, s, e, t);
    Lifecycle.Frame(env, s, e, t);
    Lifecycle.StepKeeps(env, s, e, t);
    ZonesStep(env, s, e, t);
    forall c: Uuid | c !in t.customers ensures Uploads.Pulls(t.puts, c) == 0 {
      Uploads.PullsStep(env, s, e, t, c);
    }
    forall i | 0 <= i < |t.rows| ensures t.rows[i].window.customer in t.customers {
      if i < |s.rows| {
        assert Follows(s.rows[i], t.rows[i]);
      }
    }
  }

  lemma {:induction false} RegisteredRun(env: Env, s: System, es: seq<Event>, t: System)
    requires Inv(env, s) && Registered(env, s) && Runs(env, s, es, t)
    ensures Inv(env, t) && Registered(env, t)
    decreases |es|
  {
    hide Inv, Step, Registered;
    if es != [] {
      var next := Step(env, s, es[0]).value;
      Lifecycle.StepKeeps(env, s, es[0], next);
      RegisteredStep(env, s, es[0], next);
      RegisteredRun(env, next, es[1..], t);
    }
  }

  /** CreateCustomer writes a quota of 0, not the unlimited -1 that the column defaults to:
      over every run, no pull of a customer registered through the API uploads one object. */
  lemma ApiCustomersArchiveNothing(env: Env, s: System, es: seq<Event>, m: System, c: Uuid, days: nat, es': seq<Event>, t: System)
    requires Initial(s) && Runs(env, s, es, m) && Step(env, m, Register(c, days)).Some?
    requires Runs(env, Step(env, m, Register(c, days)).value, es', t)
    ensures forall i :: 0 <= i < |t.rows| && t.rows[i].window.customer == c ==> t.rows[i].key == ""
    ensures Uploads.Pulls(t.puts, c) == 0
  {
    hide RowsOk, ListsOk;
    Lifecycle.InitialInv(env, s);
    RegisteredRun(env, s, es, m);
    var next := Step(env, m, Register(c, days)).value;
    Lifecycle.StepKeeps(env, m, Register(c, days), next);
    UnservedRun(env, next, es', t, c);
  }
}

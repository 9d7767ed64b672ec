/** Runs that spoil an erasure request, and so the exact condition under which no run does. */
module Interference {
  import opened Base
  import opened Calendar
  import opened Blob
  import opened ObjectStore
  import opened Pipeline
  import opened Requests
  import Erasure
  import Lifecycle
  import Processors
  import Quota
  import Reach
  import Retention
  import Sweeps
  import Uploads

  lemma Cons(env: Env, s: System, e: Event, m: System, es: seq<Event>, t: System)
    requires Step(env, s, e) == Some(m) && Runs(env, m, es, t)
    ensures Runs(env, s, [e] + es, t)
  {
    hide Step;
    assert ([e] + es)[1..] == es;
  }

  // Steps other than instant-log batches in which no delete of the sweep fails.
  predicate Clean(es: seq<Event>, w: nat) {
    Answered(es, w) && forall j :: 0 <= j < |es| ==> !es[j].InstantPut?
  }

  // Clean for every sweep: no erasure deletes anything.
  predicate Harmless(es: seq<Event>) {
    forall j :: 0 <= j < |es| ==> !es[j].EraseDelete? && !es[j].InstantPut?
  }

  // What the request works with is as it was.
  predicate Aside(s: System, t: System) {
    t.erasers == s.erasers && t.stores == s.stores && t.customers == s.customers
  }

  // ── A later month ──────────────────────────────────────────────────────────────────

  lemma {:induction false} NoUsage(rows: seq<Job>, c: Uuid, since: int)
    requires forall k :: 0 <= k < |rows| ==> rows[k].createdAt < since
    ensures Usage(rows, c, since) == 0
  {
    if rows != [] {
      NoUsage(rows[..|rows| - 1], c, since);
    }
  }

  lemma {:induction false} After(rows: seq<Job>, now: Time) returns (bound: nat)
    ensures now <= bound && forall k :: 0 <= k < |rows| ==> rows[k].createdAt < bound
  {
    if rows == [] {
      bound := now;
    } else {
      var n := |rows| - 1;
      bound := After(rows[..n], now);
      if bound <= rows[n].createdAt {
        bound := rows[n].createdAt + 1;
      }
    }
  }

  lemma DayBegins(day: nat)
    ensures MonthBegin(day * DAY) >= (day - 30) * DAY
  {
    assert UnixSecond(day * DAY) == day * DAY_SECONDS && UnixSecond(day * DAY) / DAY_SECONDS == day;
    DayNumberOfDate(day);
  }

  /** Every customer's usage is back to zero in some later month. */
  lemma LaterMonth(rows: seq<Job>, c: Uuid, now: Time) returns (later: Time)
    ensures now <= later && Usage(rows, c, MonthBegin(later)) == 0
  {
    hide MonthBegin;
    var bound := After(rows, now);
    later := (bound + 30) * DAY;
    DayBegins(bound + 30);
    NoUsage(rows, c, MonthBegin(later));
  }

  // ── A pull goes on ─────────────────────────────────────────────────────────────────

  function Distance(a: Stage): nat {
    match a
    case HasCustomer(_) => 3
    case HasZone(_) => 2
    case Admitted => 1
    case _ => 0
  }

  // The next step of a task that nothing stops.
  lemma GoOn(env: Env, s: System, i: nat, c: Uuid) returns (es: seq<Event>, t: System)
    requires CanSend(s, i, c) && !s.attempts[i].Linked?
    ensures Runs(env, s, es, t) && Aside(s, t) && Harmless(es) && t.rows == s.rows && CanSend(t, i, c)
    ensures Distance(t.attempts[i]) < Distance(s.attempts[i])
  {
    hide Usage, MonthBegin, LastDone;
    match s.attempts[i]
    case HasCustomer(quota) =>
      es, t := [LoadZone(i)], WithStage(s, i, HasZone(quota));
      Processors.RunsNothing(env, t);
      Cons(env, s, LoadZone(i), t, [], t);
    case HasZone(quota) =>
      var later := LaterMonth(s.rows, c, s.now);
      var m := s.(now := later);
      t := WithStage(m, i, Admitted);
      TwoSteps(env, s, Tick(later), m, CheckQuota(i), t);
      es := [Tick(later), CheckQuota(i)];
    case Admitted =>
      t := Step(env, s, Link(i, "{}", true)).value;
      Processors.RunsNothing(env, t);
      Cons(env, s, Link(i, "{}", true), t, [], t);
      es := [Link(i, "{}", true)];
  }

  lemma {:induction false} ToLinked(env: Env, s: System, i: nat, c: Uuid) returns (es: seq<Event>, t: System)
    requires CanSend(s, i, c)
    ensures Runs(env, s, es, t) && Aside(s, t) && Harmless(es) && t.rows == s.rows && CanSend(t, i, c) && t.attempts[i].Linked?
    decreases Distance(s.attempts[i])
  {
    hide Runs;
    if s.attempts[i].Linked? {
      es, t := [], s;
      Processors.RunsNothing(env, s);
    } else {
      var first, m := GoOn(env, s, i, c);
      var rest;
      rest, t := ToLinked(env, m, i, c);
      Join(env, s, first, m, rest, t);
      es := first + rest;
    }
  }

  // ── A new task ─────────────────────────────────────────────────────────────────────

  // The tasks that run are lost with their workers.
  lemma {:induction false} FreeSlots(env: Env, s: System, n: nat) returns (es: seq<Event>, t: System)
    requires |s.attempts| == |s.rows| && n <= |s.attempts| && forall i :: 0 <= i < n ==> s.attempts[i].Over?
    ensures Runs(env, s, es, t) && Harmless(es) && t == s.(attempts := t.attempts) && InFlight(t.attempts) == 0 && |t.attempts| == |s.attempts|
    decreases |s.attempts| - n
  {
    hide InFlight, Runs;
    if n == |s.attempts| {
      es, t := [], s;
      Processors.RunsNothing(env, s);
      Quota.NoneInFlight(s.attempts);
    } else if s.attempts[n].Over? {
      es, t := FreeSlots(env, s, n + 1);
    } else {
      var m := WithStage(s, n, Over);
      assert Step(env, s, Abandon(n)) == Some(m);
      var rest;
      rest, t := FreeSlots(env, m, n + 1);
      Cons(env, s, Abandon(n), m, rest, t);
      es := [Abandon(n)] + rest;
    }
  }

  lemma FirstDay()
    ensures FourDigitYear(0)
  {
    assert DateAt(0) == DateOf(0) == Date(0, 1, 1);
  }

  lemma StartTask(env: Env, s: System, c: Uuid, z: Uuid, id: Uuid) returns (es: seq<Event>, t: System, i: nat)
    requires MayStart(env, s, c) && |s.attempts| == |s.rows| && z !in s.zones && forall k :: 0 <= k < |s.rows| ==> s.rows[k].id != id
    ensures Runs(env, s, es, t) && Harmless(es) && Aside(s, t) && CanSend(t, i, c)
  {
    hide InFlight, Runs, FourDigitYear;
    var free;
    var w := Window(c, z, 0, 0);
    FirstDay();
    var a;
    free, a := FreeSlots(env, s, 0);
    var b := a.(zones := a.zones[z := Zone(c, false)]);
    assert Step(env, a, AddZone(z, c)) == Some(b);
    var d := Reach.CreateRun(env, b, id, w);
    i := |s.rows|;
    t := WithStage(d, i, HasCustomer(s.customers[c].quota));
    assert Step(env, d, LoadCustomer(i)) == Some(t);
    Reach.ThreeSteps(env, a, AddZone(z, c), b, Create(Pull, id, w), d, LoadCustomer(i), t);
    Join(env, s, free, a, [AddZone(z, c), Create(Pull, id, w), LoadCustomer(i)], t);
    es := free + [AddZone(z, c), Create(Pull, id, w), LoadCustomer(i)];
  }

  // ── The request itself ─────────────────────────────────────────────────────────────

  function Successes(n: nat): (r: seq<Outcome>)
    ensures |r| == n && Failure !in r && forall i :: 0 <= i < n ==> r[i] == Success
  {
    if n == 0 then [] else [Success] + Successes(n - 1)
  }

  // The sweep deletes the key nowhere, or not on this provider.
  predicate Untouched(env: Env, todo: seq<(nat, string)>, p: nat, key: string) {
    env.apiProviders <= p || forall k :: 0 <= k < |todo| ==> todo[k].1 != key
  }

  // From s to t the request goes on by itself: rows keep their windows, tasks their
  // positions, and objects that it does not reach their copies.
  ghost predicate Onward(env: Env, s: System, t: System, todo: seq<(nat, string)>) {
    && t.attempts == s.attempts && |t.stores| == |s.stores| && |t.rows| == |s.rows|
    && (forall i :: 0 <= i < |s.rows| ==> t.rows[i].window == s.rows[i].window && t.rows[i].kind == s.rows[i].kind)
    && forall p, key :: 0 <= p < |s.stores| && key in s.stores[p] && Untouched(env, todo, p, key) ==> key in t.stores[p]
  }

  lemma SweepOne(env: Env, s: System, w: nat) returns (es: seq<Event>, t: System)
    requires w < |s.erasers| && s.erasers[w].todo != [] && !s.erasers[w].handled && env.apiProviders <= |s.stores|
    requires s.erasers[w].todo[0].0 < |s.rows|
    ensures Runs(env, s, es, t) && Clean(es, w) && t.customers == s.customers
    ensures t.erasers == s.erasers[w := Next(s.erasers[w])] && Onward(env, s, t, [s.erasers[w].todo[0]])
  {
    hide Step;
    var faults, x := Successes(env.apiProviders), s.erasers[w].todo[0];
    Processors.EraseDeleteIs(env, s, w, faults);
    var m := Step(env, s, EraseDelete(w, faults)).value;
    Processors.EraseMarkIs(env, m, w, true);
    t := Step(env, m, EraseMark(w, true)).value;
    TwoSteps(env, s, EraseDelete(w, faults), m, EraseMark(w, true), t);
    es := [EraseDelete(w, faults), EraseMark(w, true)];
    assert [x][0] == x;
  }

  lemma OnwardJoin(env: Env, s: System, m: System, t: System, todo: seq<(nat, string)>)
    requires todo != [] && Onward(env, s, m, [todo[0]]) && Onward(env, m, t, todo[1..])
    ensures Onward(env, s, t, todo)
  {
    assert forall k :: 0 <= k < |todo| - 1 ==> todo[1..][k] == todo[k + 1];
    forall p, key | 0 <= p < |s.stores| && key in s.stores[p] && Untouched(env, todo, p, key) ensures key in t.stores[p] {
      assert Untouched(env, [todo[0]], p, key) && Untouched(env, todo[1..], p, key);
    }
  }

  lemma OnwardSame(env: Env, s: System)
    ensures Onward(env, s, s, [])
  {
  }

  lemma {:induction false} WorkOff(env: Env, s: System, w: nat) returns (es: seq<Event>, t: System)
    requires Inv(env, s) && w < |s.erasers| && !s.erasers[w].handled && env.apiProviders <= |s.stores|
    ensures Runs(env, s, es, t) && Clean(es, w) && t.customers == s.customers && Onward(env, s, t, s.erasers[w].todo)
    ensures w < |t.erasers| && t.erasers[w].todo == [] && t.erasers[w].customer == s.erasers[w].customer
    decreases |s.erasers[w].todo|
  {
    hide Inv, Step, Runs, Onward;
    if s.erasers[w].todo == [] {
      es, t := [], s;
      Processors.RunsNothing(env, s);
      assert Onward(env, s, s, []) by { OnwardSame(env, s); }
    } else {
      Processors.HeadInRange(env, s, w);
      var first, m := SweepOne(env, s, w);
      Lifecycle.RunKeeps(env, s, first, m);
      assert |m.stores| == |s.stores| by { Retention.SameStores(env, s, first, m); }
      var rest;
      rest, t := WorkOff(env, m, w);
      Join(env, s, first, m, rest, t);
      OnwardJoin(env, s, m, t, s.erasers[w].todo);
      es := first + rest;
    }
  }

  // The rest of an answered request that nothing interrupts.
  lemma Complete(env: Env, s: System, w: nat) returns (es: seq<Event>, t: System)
    requires Inv(env, s) && w < |s.erasers| && !s.erasers[w].handled && env.apiProviders <= |s.stores|
    requires s.erasers[w].customer in s.customers
    ensures Runs(env, s, es, t) && Clean(es, w) && Onward(env, s, t, s.erasers[w].todo)
    ensures w < |t.erasers| && t.erasers[w].todo == [] && Erasure.Erased(t, s.erasers[w].customer)
  {
    hide Inv, Step, Runs;
    var m;
    es, m := WorkOff(env, s, w);
    Processors.EraseCustomerIs(env, m, w);
    t := Step(env, m, EraseCustomer(w, false)).value;
    Append(env, s, es, m, EraseCustomer(w, false), t);
    es := es + [EraseCustomer(w, false)];
  }

  // ── Requests that leave something ──────────────────────────────────────────────────

  ghost predicate Spoiled(env: Env, s: System, c: Uuid, m: System, es: seq<Event>, t: System) {
    Request(env, s, c, m, es, t) && !Sweeps.NothingLeft(t.stores, c)
  }

  lemma NotListed(env: Env, rows: seq<Job>, s: System, c: Uuid, key: string)
    requires rows == s.rows && !Sweeps.Named(s, c, key)
    ensures forall k :: 0 <= k < |NewestKeyed(rows, c, ERASE_LIMIT)| ==> NewestKeyed(rows, c, ERASE_LIMIT)[k].1 != key
  {
    hide NewestKeyed, Erasure.NewerRows;
    var todo := NewestKeyed(rows, c, ERASE_LIMIT);
    NewestKeyedAre(rows, c, ERASE_LIMIT);
    forall k | 0 <= k < |todo| ensures todo[k].1 != key {
      assert todo[k] in todo;
      Erasure.ListedExactly(rows, c, ERASE_LIMIT, todo[k].0);
    }
  }

  lemma Listed(env: Env, s: System, c: Uuid)
    ensures Step(env, s, EraseList(c, true)) ==
              Some(s.(erasers := s.erasers + [Sweep(c, 0, NewestKeyed(s.rows, c, ERASE_LIMIT), false)]))
  {
    hide NewestKeyed;
  }

  lemma SpoiledByObject(env: Env, s: System, c: Uuid, p: nat, key: string) returns (m: System, es: seq<Event>, t: System)
    requires Inv(env, s) && c in s.customers && env.apiProviders <= |s.stores|
    requires p < |s.stores| && key in s.stores[p] && Uploads.Owned(key, c)
    requires env.apiProviders <= p || !Sweeps.Named(s, c, key)
    ensures Spoiled(env, s, c, m, es, t)
  {
    hide Inv, Step, Runs, NewestKeyed, Uploads.Owned, Sweeps.Named;
    var w := |s.erasers|;
    m := s.(erasers := s.erasers + [Sweep(c, 0, NewestKeyed(s.rows, c, ERASE_LIMIT), false)]);
    Listed(env, s, c);
    Lifecycle.StepKeeps(env, s, EraseList(c, true), m);
    if !Sweeps.Named(s, c, key) {
      NotListed(env, s.rows, s, c, key);
    }
    es, t := Complete(env, m, w);
    assert Untouched(env, m.erasers[w].todo, p, key);
  }

  // The upload of a linked task reaches the primary.
  lemma Stores(env: Env, s: System, i: nat) returns (key: string, t: System)
    requires RowsOk(env, s) && At(s, i) && s.attempts[i].Linked? && s.stores != []
    ensures Step(env, s, Store(i, Successes(|s.stores|))) == Some(t)
    ensures t.erasers == s.erasers && t.customers == s.customers && |t.stores| == |s.stores|
    ensures key in t.stores[0] && Uploads.Owned(key, s.rows[i].window.customer)
  {
    hide PrepareBlob, FourDigitYear, Step, Uploads.Owned, StageShape;
    var raw, w, logType := s.attempts[i].raw, s.rows[i].window, LogType(s.rows[i].kind);
    Processors.StoreIs(env, s, i, Successes(|s.stores|));
    t := Step(env, s, Store(i, Successes(|s.stores|))).value;
    key := PrepareBlob(env.codec, raw, w, logType).1.key;
    Lifecycle.RowShapeOf(env, s, i);
    Uploads.OwnKey(env.codec, raw, w, logType);
  }

  lemma OnlyRows(env: Env, s: System)
    requires Inv(env, s)
    ensures RowsOk(env, s)
  {
  }

  // A task that can upload waits until the request has been through.
  lemma WaitsOut(env: Env, s: System, w: nat, c: Uuid, i: nat) returns (es: seq<Event>, t: System)
    requires Inv(env, s) && w < |s.erasers| && !s.erasers[w].handled && env.apiProviders <= |s.stores|
    requires s.stores != [] && c == s.erasers[w].customer && c in s.customers && CanSend(s, i, c)
    ensures Runs(env, s, es, t) && Clean(es, w) && !Sweeps.NothingLeft(t.stores, c)
    ensures w < |t.erasers| && t.erasers[w].todo == [] && Erasure.Erased(t, c)
  {
    hide Inv, Step, Runs, Uploads.Owned;
    var link, a := ToLinked(env, s, i, c);
    Lifecycle.RunKeeps(env, s, link, a);
    var rest, b := Complete(env, a, w);
    Join(env, s, link, a, rest, b);
    Lifecycle.RunKeeps(env, a, rest, b);
    assert RowsOk(env, b) by { OnlyRows(env, b); }
    var key;
    key, t := Stores(env, b, i);
    var e := Store(i, Successes(|b.stores|));
    Append(env, s, link + rest, b, e, t);
    es := link + rest + [e];
  }

  lemma SameTask(s: System, t: System, i: nat, c: Uuid)
    requires CanSend(s, i, c) && t.attempts == s.attempts && t.rows == s.rows && t.zones == s.zones
    ensures CanSend(t, i, c)
  {
  }

  lemma SpoiledByUpload(env: Env, s: System, c: Uuid, z: Uuid, id: Uuid) returns (m: System, es: seq<Event>, t: System)
    requires Inv(env, s) && Grounded(env, s) && c in s.customers && env.apiProviders <= |s.stores| && MayUpload(env, s, c)
    requires z !in s.zones && forall k :: 0 <= k < |s.rows| ==> s.rows[k].id != id
    ensures Spoiled(env, s, c, m, es, t)
  {
    hide Inv, Step, Runs, NewestKeyed, Sweeps.NothingLeft, CanSend;
    var w := |s.erasers|;
    m := s.(erasers := s.erasers + [Sweep(c, 0, NewestKeyed(s.rows, c, ERASE_LIMIT), false)]);
    Listed(env, s, c);
    Lifecycle.StepKeeps(env, s, EraseList(c, true), m);
    var start, a, i := [], m, 0;
    if MayStart(env, s, c) {
      start, a, i := StartTask(env, m, c, z, id);
      Lifecycle.RunKeeps(env, m, start, a);
    } else {
      Processors.RunsNothing(env, m);
      i :| 0 <= i < |s.rows| && CanSend(s, i, c);
      assert CanSend(m, i, c) by { SameTask(s, m, i, c); }
    }
    var rest;
    rest, t := WaitsOut(env, a, w, c, i);
    Join(env, m, start, a, rest, t);
    es := start + rest;
  }

  // ── The exact condition ────────────────────────────────────────────────────────────

  lemma InitialGrounded(env: Env, s: System)
    requires Initial(s)
    ensures Grounded(env, s)
  {
  }

  lemma {:induction false} GroundedRun(env: Env, s: System, es: seq<Event>, t: System)
    requires Inv(env, s) && Grounded(env, s) && Runs(env, s, es, t)
    ensures Grounded(env, t)
    decreases |es|
  {
    hide Inv, Step, Grounded;
    if es != [] {
      var next := Step(env, s, es[0]).value;
      GroundedStep(env, s, es[0], next);
      Lifecycle.StepKeeps(env, s, es[0], next);
      GroundedRun(env, next, es[1..], t);
    }
  }

  /** An erasure request whose listing is answered and whose deletes all work leaves nothing
      of the customer, whatever runs until its end and after but the customer's instant-log
      streams, exactly when at its listing each object of the customer lies on a provider that
      the API knows and is named by one of the customer's newest 9999 rows, and no pull of the
      customer can upload any more. The ids z and id are ones that no zone and no job has yet. */
  lemma SurelyErasesAllExactlyWhen(env: Env, start: System, before: seq<Event>, s: System, c: Uuid, z: Uuid, id: Uuid)
    requires Initial(start) && Runs(env, start, before, s) && c in s.customers && env.apiProviders <= |s.stores|
    requires z !in s.zones && forall k :: 0 <= k < |s.rows| ==> s.rows[k].id != id
    ensures (forall m, es, t :: Request(env, s, c, m, es, t) ==> Sweeps.NothingLeft(t.stores, c)) <==>
            Sweeps.AllInReach(env, s, c) && !MayUpload(env, s, c)
  {
    hide Inv, Runs, Step, Request, Sweeps.NothingLeft, MayUpload, Uploads.Owned, Sweeps.Named, Grounded;
    Lifecycle.InitialInv(env, start);
    Lifecycle.RunKeeps(env, start, before, s);
    InitialGrounded(env, start);
    GroundedRun(env, start, before, s);
    if Sweeps.AllInReach(env, s, c) && !MayUpload(env, s, c) {
      forall m, es, t | Request(env, s, c, m, es, t) ensures Sweeps.NothingLeft(t.stores, c) {
        ClosedRequestErases(env, s, c, m, es, t);
      }
    } else if MayUpload(env, s, c) {
      var m, es, t := SpoiledByUpload(env, s, c, z, id);
    } else {
      var p, key :| 0 <= p < |s.stores| && key in s.stores[p] && Uploads.Owned(key, c) && !(p < env.apiProviders && Sweeps.Named(s, c, key));
      var m, es, t := SpoiledByObject(env, s, c, p, key);
    }
  }

  // ── A request that a running pull spoils ───────────────────────────────────────────

  // A task holds the bytes of its window, and nothing is stored yet.
  lemma OneLinked(env: Env, start: System, id: Uuid, w: Window, raw: Bytes) returns (es: seq<Event>, s: System)
    requires start == Reach.Start(start.now, w.customer, -1, w.zone) && env.concurrency == 1 && Printable(w) && raw != ""
    ensures Runs(env, start, es, s) && s == start.(rows := [BlankJob(id, Pull, w, start.now)], attempts := s.attempts)
    ensures |s.attempts| == 1 && s.attempts[0].Linked? && s.attempts[0].raw == raw
  {
    hide FourDigitYear, Step, Printable, Usage, MonthBegin, LastDone;
    assert InFlight([]) == 0;
    var a := Reach.CreateRun(env, start, id, w);
    var admit := Reach.AdmitRun(env, a, 0);
    var b := WithStage(a, 0, Admitted);
    Cons(env, start, Create(Pull, id, w), a, admit, b);
    Processors.LinkIs(env, b, 0, raw, true);
    s := Step(env, b, Link(0, raw, true)).value;
    Append(env, start, [Create(Pull, id, w)] + admit, b, Link(0, raw, true), s);
    es := [Create(Pull, id, w)] + admit + [Link(0, raw, true)];
  }

  lemma Puts(stores: seq<Objects>, key: string, blob: Bytes)
    requires |stores| == 1
    ensures var r := PutAll(stores, [Success], key, blob); |r| == 1 && key in r[0]
  {
  }

  lemma Dropped(env: Env, s: System, w: nat)
    requires w < |s.erasers| && s.erasers[w].todo == [] && s.erasers[w].customer in s.customers
    ensures var r, c := Step(env, s, EraseCustomer(w, true)), s.erasers[w].customer;
            r.Some? && r.value == s.(customers := s.customers[c := s.customers[c].(deleted := true)], zones := r.value.zones)
  {
  }

  /** One provider, known to the API, one worker, every call answered, every object and row
      where the request reaches it at the listing: a task that holds its bytes at the listing
      uploads and finishes before the record is deleted, and its archive stays, named by a
      row that is done. */
  lemma ArchivedMeanwhile(codec: Codec, now: Time, id: Uuid, w: Window, raw: Bytes)
    returns (before: seq<Event>, s: System, m: System, es: seq<Event>, t: System)
    requires Printable(w) && raw != ""
    ensures var env, start := Env(codec, 1, 1), Reach.Start(now, w.customer, -1, w.zone);
            Initial(start) && Runs(env, start, before, s) && Sweeps.AllInReach(env, s, w.customer) && Request(env, s, w.customer, m, es, t)
    ensures |t.rows| == |t.stores| == 1 && t.rows[0].status == Done && t.rows[0].key in t.stores[0]
    ensures Uploads.Owned(t.rows[0].key, w.customer)
    ensures !Sweeps.NothingLeft(t.stores, w.customer)
  {
    hide FourDigitYear, Step, Runs, Printable, PrepareBlob, PutAll, Uploads.Owned;
    var env, c := Env(codec, 1, 1), w.customer;
    before, s := OneLinked(env, Reach.Start(now, c, -1, w.zone), id, w, raw);
    m := s.(erasers := s.erasers + [Sweep(c, 0, [], false)]);
    Listed(env, s, c);
    assert s.rows[..0] == [];
    assert NewestKeyed(s.rows, c, ERASE_LIMIT) == [];
    Processors.StoreIs(env, m, 0, [Success]);
    var a := Step(env, m, Store(0, [Success])).value;
    assert Uploads.Owned(PrepareBlob(codec, raw, w, "logs").1.key, c) by { Uploads.OwnKey(codec, raw, w, "logs"); }
    var (blob, meta) := PrepareBlob(codec, raw, w, "logs");
    assert |a.stores| == 1 && meta.key in a.stores[0] by { Puts(s.stores, meta.key, blob); }
    Processors.FinishIs(env, a, 0, true);
    var b := Step(env, a, Finish(0, true)).value;
    Dropped(env, b, 0);
    t := Step(env, b, EraseCustomer(0, true)).value;
    es := [Store(0, [Success]), Finish(0, true), EraseCustomer(0, true)];
    Reach.ThreeSteps(env, m, es[0], a, es[1], b, es[2], t);
    assert Request(env, s, c, m, es, t);
  }
}

/** Account erasure against running pulls: what can still be archived after the customer
    record is gone, which rows the handler reaches, and which copies outlive it. */
module Erasure {
  import opened Base
  import opened Calendar
  import opened Blob
  import opened ObjectStore
  import opened Pipeline
  import Lifecycle
  import Retention
  import Uploads

  // An attempt that has read the customer record and is not over.
  predicate Loaded(a: Stage) {
    !a.Created? && !a.Over?
  }

  function Weight(j: Job, a: Stage, c: Uuid): nat {
    if j.window.customer != c then 0 else (if j.key != "" then 1 else 0) + if Loaded(a) then 1 else 0
  }

  // Archives of the customer ever made, plus attempts that may still make one.
  function Exposure(rows: seq<Job>, attempts: seq<Stage>, c: Uuid): nat
    requires |rows| == |attempts|
  {
    if rows == [] then 0
    else
      var n := |rows| - 1;
      Exposure(rows[..n], attempts[..n], c) + Weight(rows[n], attempts[n], c)
  }

  function Archives(rows: seq<Job>, c: Uuid): nat {
    if rows == [] then 0
    else
      var n := |rows| - 1;
      Archives(rows[..n], c) + if rows[n].window.customer == c && rows[n].key != "" then 1 else 0
  }

  function LoadedCount(rows: seq<Job>, attempts: seq<Stage>, c: Uuid): nat
    requires |rows| == |attempts|
  {
    if rows == [] then 0
    else
      var n := |rows| - 1;
      LoadedCount(rows[..n], attempts[..n], c) + if rows[n].window.customer == c && Loaded(attempts[n]) then 1 else 0
  }

  lemma {:induction false} ExposureSplits(rows: seq<Job>, attempts: seq<Stage>, c: Uuid)
    requires |rows| == |attempts|
    ensures Exposure(rows, attempts, c) == Archives(rows, c) + LoadedCount(rows, attempts, c)
    decreases |rows|
  {
    if rows != [] {
      ExposureSplits(rows[..|rows| - 1], attempts[..|rows| - 1], c);
    }
  }

  lemma {:induction false} ExposureUpdate(rows: seq<Job>, attempts: seq<Stage>, i: nat, j: Job, a: Stage, c: Uuid)
    requires |rows| == |attempts| && i < |rows|
    ensures Exposure(rows[i := j], attempts[i := a], c) + Weight(rows[i], attempts[i], c) ==
            Exposure(rows, attempts, c) + Weight(j, a, c)
  {
    var n := |rows| - 1;
    if i == n {
      assert rows[i := j][..n] == rows[..n] && attempts[i := a][..n] == attempts[..n];
    } else {
      assert rows[i := j][..n] == rows[..n][i := j] && attempts[i := a][..n] == attempts[..n][i := a];
      ExposureUpdate(rows[..n], attempts[..n], i, j, a, c);
    }
  }

  lemma ExposureAppend(rows: seq<Job>, attempts: seq<Stage>, j: Job, a: Stage, c: Uuid)
    requires |rows| == |attempts|
    ensures Exposure(rows + [j], attempts + [a], c) == Exposure(rows, attempts, c) + Weight(j, a, c)
  {
    assert (rows + [j])[..|rows|] == rows && (attempts + [a])[..|rows|] == attempts;
  }

  predicate Erased(s: System, c: Uuid) {
    c in s.customers && s.customers[c].deleted
  }

  lemma MoveExposure(env: Env, s: System, e: Event, t: System, c: Uuid)
    requires Inv(env, s) && Erased(s, c) && Step(env, s, e) == Some(t) && Moved(e).Some?
    ensures e.i < |s.rows| == |t.rows| == |t.attempts|
    ensures Weight(t.rows[e.i], t.attempts[e.i], c) <= Weight(s.rows[e.i], s.attempts[e.i], c)
  {
    hide PrepareBlob, FourDigitYear, ListsOk, PutAll, LastDone, Usage, MonthBegin, InFlight;
    assert RowShape(env, s.rows[e.i]) && StageShape(env, s.rows[e.i], s.attempts[e.i]);
  }

  lemma OneUpdate<T>(a: seq<T>, b: seq<T>, k: nat)
    requires k < |a| == |b| && forall i :: 0 <= i < |a| && i != k ==> b[i] == a[i]
    ensures b == a[k := b[k]]
  {
  }

  lemma OneAppend<T>(a: seq<T>, b: seq<T>, x: T)
    requires |b| == |a| + 1 && b[|a|] == x && forall i :: 0 <= i < |a| ==> b[i] == a[i]
    ensures b == a + [x]
  {
  }

  // A step adds a row, or changes one row and its attempt, or none.
  lemma OneChange(env: Env, s: System, e: Event, t: System) returns (k: Option<nat>)
    requires Inv(env, s) && Step(env, s, e) == Some(t)
    ensures |s.attempts| == |s.rows| && |t.attempts| == |t.rows|
    ensures e.Create? ==>
              && t.rows == s.rows + [BlankJob(e.id, e.kind, e.window, s.now)] && t.attempts == s.attempts + [Created]
              && Moved(e).None?
    ensures !e.Create? && k.None? ==> t.rows == s.rows && t.attempts == s.attempts && Moved(e).None?
    ensures !e.Create? && k.Some? ==>
              && k.value < |s.rows| == |t.rows|
              && t.rows == s.rows[k.value := t.rows[k.value]] && t.attempts == s.attempts[k.value := t.attempts[k.value]]
              && (Moved(e).Some? ==> k == Moved(e))
              && (Moved(e).None? ==> t.attempts[k.value] == s.attempts[k.value] && Settled(s.rows[k.value]))
              && Follows(s.rows[k.value], t.rows[k.value])
  {
    hide Inv, Step, Follows, Settled;
    Lifecycle.Frame(env, s, e, t);
    Lifecycle.StepKeeps(env, s, e, t);
    k := if Moved(e).Some? then Moved(e) else Written(s, e);
    if e.Create? {
      OneAppend(s.rows, t.rows, BlankJob(e.id, e.kind, e.window, s.now));
      OneAppend(s.attempts, t.attempts, Created);
    } else if k.Some? {
      OneUpdate(s.rows, t.rows, k.value);
      OneUpdate(s.attempts, t.attempts, k.value);
    } else {
      assert t.rows == s.rows && t.attempts == s.attempts;
    }
  }

  lemma ExposureStep(env: Env, s: System, e: Event, t: System, c: Uuid)
    requires Inv(env, s) && Erased(s, c) && Step(env, s, e) == Some(t) && |t.attempts| == |t.rows|
    ensures Exposure(t.rows, t.attempts, c) <= Exposure(s.rows, s.attempts, c)
  {
    hide PrepareBlob, FourDigitYear, RowsOk, ListsOk, Step, Exposure, Lifecycle.Framed, RowsFollow;
    var k := OneChange(env, s, e, t);
    if e.Create? {
      ExposureAppend(s.rows, s.attempts, t.rows[|s.rows|], Created, c);
    } else if k.Some? {
      ExposureUpdate(s.rows, s.attempts, k.value, t.rows[k.value], t.attempts[k.value], c);
      if Moved(e).Some? {
        MoveExposure(env, s, e, t, c);
      }
    }
  }

  lemma {:induction false} ExposureRun(env: Env, s: System, es: seq<Event>, t: System, c: Uuid)
    requires Inv(env, s) && Erased(s, c) && Runs(env, s, es, t)
    ensures Inv(env, t) && |s.attempts| == |s.rows| && |t.attempts| == |t.rows| && Erased(t, c)
    ensures Exposure(t.rows, t.attempts, c) <= Exposure(s.rows, s.attempts, c)
    decreases |es|
  {
    hide ListsOk, RowShape, StageShape, FourDigitYear, Step, Exposure;
    if es != [] {
      var next := Step(env, s, es[0]).value;
      Lifecycle.StepKeeps(env, s, es[0], next);
      Retention.GlobalsGrow(env, s, es[0], next);
      ExposureStep(env, s, es[0], next, c);
      ExposureRun(env, next, es[1..], t, c);
    }
  }

  /** Once the customer record is deleted, the archives that any continuation adds number at
      most the attempts that had read the record by then. */
  lemma AddedArchivesBound(env: Env, s: System, es: seq<Event>, t: System, c: Uuid)
    requires Inv(env, s) && Erased(s, c) && Runs(env, s, es, t)
    ensures |s.attempts| == |s.rows| && Archives(t.rows, c) <= Archives(s.rows, c) + LoadedCount(s.rows, s.attempts, c)
  {
    hide Inv, Step;
    ExposureRun(env, s, es, t, c);
    ExposureSplits(s.rows, s.attempts, c);
    ExposureSplits(t.rows, t.attempts, c);
  }

  predicate LateShape(s: System, i: nat) {
    && i < |s.rows| && i < |s.attempts|
    && ((s.attempts[i].Created? && s.rows[i].status == Pending) ||
        (s.attempts[i].Over? && (s.rows[i].status == Pending || s.rows[i].status == Failed)))
  }

  lemma LateMove(env: Env, s: System, e: Event, t: System, c: Uuid)
    requires Erased(s, c) && Step(env, s, e) == Some(t) && Moved(e).Some? && |s.attempts| == |s.rows|
    requires e.i < |s.rows| && s.rows[e.i].window.customer == c && LateShape(s, e.i) && !s.attempts[e.i].Over?
    ensures LateShape(t, e.i)
  {
    hide PrepareBlob, FourDigitYear, PutAll, LastDone, Usage, MonthBegin;
  }

  lemma LateStep(env: Env, s: System, e: Event, t: System, c: Uuid, i: nat)
    requires Inv(env, s) && Erased(s, c) && Step(env, s, e) == Some(t) && RowsFollow(s.rows, t.rows)
    requires i < |s.rows| && s.rows[i].window.customer == c && LateShape(s, i)
    ensures i < |t.rows| && t.rows[i].window.customer == c && LateShape(t, i)
  {
    hide PrepareBlob, FourDigitYear, RowShape, StageShape, ListsOk, Step;
    Lifecycle.Frame(env, s, e, t);
    assert Follows(s.rows[i], t.rows[i]);
    if Moved(e) == Some(i) {
      LateMove(env, s, e, t, c);
    }
  }

  /** An attempt that has not read the record when it is deleted can only fail, be lost or
      wait: it never archives. */
  lemma {:induction false} LateAttemptNeverArchives(env: Env, s: System, es: seq<Event>, t: System, c: Uuid, i: nat)
    requires Inv(env, s) && Erased(s, c) && Runs(env, s, es, t)
    requires i < |s.rows| && s.rows[i].window.customer == c
    requires LateShape(s, i)
    ensures i < |t.rows| && LateShape(t, i)
    decreases |es|
  {
    hide ListsOk, RowsOk, Step, LateShape;
    if es != [] {
      var next := Step(env, s, es[0]).value;
      Lifecycle.StepKeeps(env, s, es[0], next);
      Retention.GlobalsGrow(env, s, es[0], next);
      LateStep(env, s, es[0], next, c, i);
      LateAttemptNeverArchives(env, next, es[1..], t, c, i);
    }
  }

  // ── Uploads after the erasure ──────────────────────────────────────────────────────

  // An attempt that has read the customer record and may still upload.
  predicate Unsent(a: Stage) {
    a.HasCustomer? || a.HasZone? || a.Admitted? || a.Linked?
  }

  function UnsentOf(j: Job, a: Stage, c: Uuid): nat {
    if j.window.customer == c && Unsent(a) then 1 else 0
  }

  function UnsentCount(rows: seq<Job>, attempts: seq<Stage>, c: Uuid): nat
    requires |rows| == |attempts|
  {
    if rows == [] then 0
    else
      var n := |rows| - 1;
      UnsentCount(rows[..n], attempts[..n], c) + UnsentOf(rows[n], attempts[n], c)
  }

  lemma {:induction false} UnsentUpdate(rows: seq<Job>, attempts: seq<Stage>, i: nat, j: Job, a: Stage, c: Uuid)
    requires |rows| == |attempts| && i < |rows|
    ensures UnsentCount(rows[i := j], attempts[i := a], c) + UnsentOf(rows[i], attempts[i], c) ==
            UnsentCount(rows, attempts, c) + UnsentOf(j, a, c)
  {
    var n := |rows| - 1;
    if i == n {
      assert rows[i := j][..n] == rows[..n] && attempts[i := a][..n] == attempts[..n];
    } else {
      assert rows[i := j][..n] == rows[..n][i := j] && attempts[i := a][..n] == attempts[..n][i := a];
      UnsentUpdate(rows[..n], attempts[..n], i, j, a, c);
    }
  }

  lemma UnsentMove(env: Env, s: System, e: Event, t: System, c: Uuid)
    requires |s.attempts| == |s.rows| && Erased(s, c) && Step(env, s, e) == Some(t) && Moved(e).Some?
    ensures e.i < |s.rows| == |t.rows| == |t.attempts| && t.rows[e.i].window == s.rows[e.i].window
    ensures UnsentOf(t.rows[e.i], t.attempts[e.i], c) + (if e.Store? && s.rows[e.i].window.customer == c then 1 else 0) <=
            UnsentOf(s.rows[e.i], s.attempts[e.i], c)
  {
    hide PrepareBlob, FourDigitYear, PutAll, LastDone, Usage, MonthBegin, InFlight;
  }

  lemma UnsentAppend(rows: seq<Job>, attempts: seq<Stage>, j: Job, c: Uuid)
    requires |rows| == |attempts|
    ensures UnsentCount(rows + [j], attempts + [Created], c) == UnsentCount(rows, attempts, c)
  {
    assert (rows + [j])[..|rows|] == rows && (attempts + [Created])[..|rows|] == attempts;
  }

  lemma UnsentStep(env: Env, s: System, e: Event, t: System, c: Uuid)
    requires Inv(env, s) && Erased(s, c) && Step(env, s, e) == Some(t) && |t.attempts| == |t.rows|
    ensures UnsentCount(t.rows, t.attempts, c) + Uploads.Pulls(t.puts, c) <= UnsentCount(s.rows, s.attempts, c) + Uploads.Pulls(s.puts, c)
  {
    hide PrepareBlob, FourDigitYear, RowsOk, ListsOk, Step, UnsentCount, Uploads.Pulls, Lifecycle.Framed, RowsFollow;
    var k := OneChange(env, s, e, t);
    Uploads.PullsStep(env, s, e, t, c);
    if e.Create? {
      UnsentAppend(s.rows, s.attempts, t.rows[|s.rows|], c);
    } else if k.Some? {
      UnsentUpdate(s.rows, s.attempts, k.value, t.rows[k.value], t.attempts[k.value], c);
      if Moved(e).Some? {
        UnsentMove(env, s, e, t, c);
      }
    }
  }

  /** Once the customer record is deleted, the objects that pulls of the customer still
      upload, with or without a row that ever names them, number at most the attempts that
      had read the record and not uploaded by then. */
  lemma {:induction false} AddedUploadsBound(env: Env, s: System, es: seq<Event>, t: System, c: Uuid)
    requires Inv(env, s) && Erased(s, c) && Runs(env, s, es, t)
    ensures Inv(env, t) && |s.attempts| == |s.rows| && |t.attempts| == |t.rows|
    ensures UnsentCount(t.rows, t.attempts, c) + Uploads.Pulls(t.puts, c) <= UnsentCount(s.rows, s.attempts, c) + Uploads.Pulls(s.puts, c)
    decreases |es|
  {
    hide ListsOk, RowShape, StageShape, FourDigitYear, Step, UnsentCount, Uploads.Pulls;
    if es != [] {
      var next := Step(env, s, es[0]).value;
      Lifecycle.StepKeeps(env, s, es[0], next);
      Retention.GlobalsGrow(env, s, es[0], next);
      UnsentStep(env, s, es[0], next, c);
      AddedUploadsBound(env, next, es[1..], t, c);
    }
  }

  /** The end of a request deletes exactly the customer's record and, if that call worked, the
      customer's zones. */
  lemma EraseCustomerExactly(env: Env, s: System, w: nat, zonesWritten: bool, t: System)
    requires Step(env, s, EraseCustomer(w, zonesWritten)) == Some(t)
    ensures w < |s.erasers| && s.erasers[w].todo == [] && t == s.(customers := t.customers, zones := t.zones)
    ensures var c := s.erasers[w].customer;
            && c in s.customers && t.customers == s.customers[c := s.customers[c].(deleted := true)] && t.zones.Keys == s.zones.Keys
            && forall z :: z in s.zones ==>
                 t.zones[z] == if zonesWritten && s.zones[z].customer == c then s.zones[z].(deleted := true) else s.zones[z]
  {
  }

  // ── Which rows the handler reaches ─────────────────────────────────────────────────

  function NewerRows(rows: seq<Job>, c: Uuid, i: nat): nat
    requires i < |rows|
  {
    var n := |rows| - 1;
    if i == n then 0 else NewerRows(rows[..n], c, i) + if rows[n].window.customer == c then 1 else 0
  }

  lemma NewestKeyedStep(rows: seq<Job>, c: Uuid, limit: nat)
    requires rows != [] && limit != 0
    ensures var n := |rows| - 1;
            && (rows[n].window.customer != c ==> NewestKeyed(rows, c, limit) == NewestKeyed(rows[..n], c, limit))
            && (rows[n].window.customer == c ==>
                  NewestKeyed(rows, c, limit) == (if rows[n].key != "" then [(n, rows[n].key)] else []) + NewestKeyed(rows[..n], c, limit - 1))
  {
  }

  /** The handler's list holds a row that names an object exactly when the row is the
      customer's and fewer than the limit of the customer's rows are newer. */
  lemma {:induction false} ListedExactly(rows: seq<Job>, c: Uuid, limit: nat, i: nat)
    requires i < |rows|
    ensures (i, rows[i].key) in NewestKeyed(rows, c, limit) <==>
            rows[i].window.customer == c && rows[i].key != "" && NewerRows(rows, c, i) < limit
    decreases |rows|
  {
    var n := |rows| - 1;
    if limit != 0 {
      NewestKeyedStep(rows, c, limit);
      NewestKeyedAre(rows[..n], c, limit);
      NewestKeyedAre(rows[..n], c, limit - 1);
      hide NewestKeyed;
      if i < n {
        if rows[n].window.customer != c {
          ListedExactly(rows[..n], c, limit, i);
        } else {
          ListedExactly(rows[..n], c, limit - 1, i);
        }
      }
    }
  }

  predicate MarksWritten(es: seq<Event>) {
    forall k :: 0 <= k < |es| && es[k].EraseMark? ==> es[k].written
  }

  // Handled by eraser w: still on its list, or expired.
  predicate InHand(s: System, w: nat, x: (nat, string)) {
    w < |s.erasers| && x.0 < |s.rows| && (x in s.erasers[w].todo || s.rows[x.0].status == Expired)
  }

  lemma EraserMoves(env: Env, s: System, e: Event, t: System, w: nat, x: (nat, string))
    requires Step(env, s, e) == Some(t) && (e.EraseDelete? || e.EraseMark?) && e.w == w && w < |s.erasers|
    requires x in s.erasers[w].todo && x.0 < |s.rows| && (e.EraseMark? ==> e.written)
    ensures w < |t.erasers| && x.0 < |t.rows| && (x in t.erasers[w].todo || t.rows[x.0].status == Expired)
  {
    var todo := s.erasers[w].todo;
    assert todo == [todo[0]] + todo[1..];
  }

  lemma InHandStep(env: Env, s: System, e: Event, t: System, w: nat, x: (nat, string))
    requires Inv(env, s) && Step(env, s, e) == Some(t) && InHand(s, w, x) && (e.EraseMark? ==> e.written)
    ensures InHand(t, w, x)
  {
    hide PrepareBlob, FourDigitYear, Step, RowsOk, ListsOk;
    Lifecycle.StepKeeps(env, s, e, t);
    Lifecycle.ListFields(env, s, e, t);
    assert Follows(s.rows[x.0], t.rows[x.0]);
    if (e.EraseDelete? || e.EraseMark?) && e.w == w && x in s.erasers[w].todo {
      EraserMoves(env, s, e, t, w, x);
    }
  }

  lemma {:induction false} InHandRun(env: Env, s: System, es: seq<Event>, t: System, w: nat, x: (nat, string))
    requires Inv(env, s) && Runs(env, s, es, t) && InHand(s, w, x) && MarksWritten(es)
    ensures InHand(t, w, x)
    decreases |es|
  {
    hide Inv, Step, InHand;
    if es != [] {
      var next := Step(env, s, es[0]).value;
      Lifecycle.StepKeeps(env, s, es[0], next);
      InHandStep(env, s, es[0], next, w, x);
      assert forall k :: 0 <= k < |es[1..]| ==> es[1..][k] == es[k + 1];
      InHandRun(env, next, es[1..], t, w, x);
    }
  }

  /** When the listing is answered and no mark is lost, every row that named an object at
      the listing and had fewer than 9999 newer rows of the customer has ended expired by
      the time the handler is through, whatever else ran meanwhile. */
  lemma ListedRowsEndExpired(env: Env, s: System, c: Uuid, m: System, es: seq<Event>, t: System, i: nat)
    requires Inv(env, s) && Step(env, s, EraseList(c, true)) == Some(m) && Runs(env, m, es, t) && MarksWritten(es)
    requires |s.erasers| < |t.erasers| && t.erasers[|s.erasers|].todo == []
    requires i < |s.rows| && s.rows[i].window.customer == c && s.rows[i].key != "" && NewerRows(s.rows, c, i) < 9999
    ensures i < |t.rows| && t.rows[i].status == Expired
  {
    hide RowsOk, ListsOk, NewestKeyed;
    Lifecycle.StepKeeps(env, s, EraseList(c, true), m);
    ListedExactly(s.rows, c, ERASE_LIMIT, i);
    InHandRun(env, m, es, t, |s.erasers|, (i, s.rows[i].key));
  }

  // ── Copies that outlive the erasure ────────────────────────────────────────────────

  // No pull of the customer is running.
  ghost predicate Quiet(s: System, c: Uuid) {
    |s.attempts| == |s.rows| && forall i :: 0 <= i < |s.rows| && s.rows[i].window.customer == c ==> !Loaded(s.attempts[i])
  }

  predicate NotListed(sweeps: seq<Sweep>, key: string) {
    forall w, x :: 0 <= w < |sweeps| && x in sweeps[w].todo ==> x.1 != key
  }

  lemma KeyOwner(env: Env, s: System, i: nat, key: string, c: Uuid)
    requires RowsOk(env, s) && Uploads.PullKey(key, c) && i < |s.rows| && s.rows[i].key == key
    ensures s.rows[i].window.customer == c
  {
    hide FourDigitYear, StageShape, KeyTail, Uploads.PullKey;
    var j := s.rows[i];
    assert RowShape(env, j);
    Uploads.KeyOfPull(env.codec, j.raw, j.window, j.kind, c);
    Uploads.PullKeyNotEmpty(key, c);
  }

  lemma NotLoadedStep(env: Env, s: System, e: Event, t: System, c: Uuid)
    requires Inv(env, s) && Erased(s, c) && Step(env, s, e) == Some(t) && Moved(e).Some?
    requires e.i < |s.rows| == |s.attempts| && s.rows[e.i].window.customer == c && !Loaded(s.attempts[e.i])
    ensures e.i < |t.rows| == |t.attempts| && !Loaded(t.attempts[e.i]) && t.rows[e.i].key == s.rows[e.i].key
    ensures t.rows[e.i].key != "" ==> t.rows[e.i] == s.rows[e.i]
  {
    hide PrepareBlob, FourDigitYear, ListsOk, PutAll, LastDone, Usage, MonthBegin, InFlight;
    assert RowShape(env, s.rows[e.i]) && StageShape(env, s.rows[e.i], s.attempts[e.i]);
  }

  lemma NewNotLoaded()
    ensures !Loaded(Created)
  {
  }

  lemma FollowsWindow(a: Job, b: Job)
    requires Follows(a, b)
    ensures b.window == a.window
    ensures a.key != "" && Settled(a) ==> b.key == a.key && Settled(b) && (a.status == Expired ==> b.status == Expired)
  {
  }

  lemma QuietStep(env: Env, s: System, e: Event, t: System, c: Uuid)
    requires Inv(env, s) && Erased(s, c) && Quiet(s, c) && Step(env, s, e) == Some(t)
    ensures Quiet(t, c)
  {
    hide Inv, Step, Erased, Loaded, Follows, Settled;
    var k := OneChange(env, s, e, t);
    if e.Create? {
      assert !Loaded(Created) by { NewNotLoaded(); }
    } else if k.Some? && Moved(e).Some? && s.rows[k.value].window.customer == c {
      NotLoadedStep(env, s, e, t, c);
    }
    if k.Some? && !e.Create? {
      FollowsWindow(s.rows[k.value], t.rows[k.value]);
    }
  }

  // A row that carries the key of an erased customer carried it before.
  lemma KeyWasThere(env: Env, s: System, e: Event, t: System, c: Uuid, key: string, i: nat)
    requires Inv(env, s) && Erased(s, c) && Quiet(s, c) && Uploads.PullKey(key, c) && Step(env, s, e) == Some(t)
    requires i < |t.rows| && t.rows[i].key == key
    ensures i < |s.rows| && s.rows[i].key == key && (s.rows[i].status == Expired ==> t.rows[i].status == Expired)
  {
    hide RowsOk, ListsOk, Step, Erased, Loaded, Uploads.PullKey;
    Lifecycle.StepKeeps(env, s, e, t);
    KeyOwner(env, t, i, key, c);
    Uploads.PullKeyNotEmpty(key, c);
    var k := OneChange(env, s, e, t);
    if !e.Create? && k == Some(i) && Moved(e).Some? {
      NotLoadedStep(env, s, e, t, c);
    }
  }

  lemma ListsStay(env: Env, s: System, e: Event, t: System, key: string)
    requires Step(env, s, e) == Some(t) && key != ""
    ensures NotListed(s.expirers, key) && (forall i :: 0 <= i < |s.rows| && s.rows[i].key == key ==> s.rows[i].status == Expired) ==>
              NotListed(t.expirers, key)
    ensures NotListed(s.erasers, key) && (forall i :: 0 <= i < |s.rows| ==> s.rows[i].key != key) ==> NotListed(t.erasers, key)
  {
    hide PrepareBlob, FourDigitYear, PutAll, DeleteAll, GetFirst, LastDone, Usage, InFlight, DueRows, NewestKeyed, MonthBegin;
    Lifecycle.ListFields(env, s, e, t);
    if e.ExpireList? {
      DueRowsAre(s.rows, e.customer, s.now - s.customers[e.customer].retentionDays * DAY);
    } else if e.EraseList? {
      NewestKeyedAre(s.rows, e.customer, ERASE_LIMIT);
    }
  }

  // The erased customer has no running pull, and retention will not delete the key: no done
  // row and no retention list names it.
  ghost predicate OutOfReach(s: System, c: Uuid, key: string) {
    && Quiet(s, c) && NotListed(s.expirers, key)
    && forall i :: 0 <= i < |s.rows| && s.rows[i].key == key ==> s.rows[i].status == Expired
  }

  // No row and no list names the key at all.
  ghost predicate Orphan(s: System, c: Uuid, key: string) {
    && Quiet(s, c) && NotListed(s.expirers, key) && NotListed(s.erasers, key)
    && forall i :: 0 <= i < |s.rows| ==> s.rows[i].key != key
  }

  lemma OutOfReachStep(env: Env, s: System, e: Event, t: System, c: Uuid, key: string)
    requires Inv(env, s) && Erased(s, c) && Uploads.PullKey(key, c) && Step(env, s, e) == Some(t)
    ensures OutOfReach(s, c, key) ==> OutOfReach(t, c, key)
    ensures Orphan(s, c, key) ==> Orphan(t, c, key)
  {
    hide Inv, Step, Erased, Quiet, NotListed, Uploads.PullKey;
    Uploads.PullKeyNotEmpty(key, c);
    if Quiet(s, c) {
      QuietStep(env, s, e, t, c);
      ListsStay(env, s, e, t, key);
      forall i | 0 <= i < |t.rows| && t.rows[i].key == key
        ensures i < |s.rows| && s.rows[i].key == key && (s.rows[i].status == Expired ==> t.rows[i].status == Expired)
      {
        KeyWasThere(env, s, e, t, c, key, i);
      }
    }
  }

  lemma CopyStays(env: Env, s: System, e: Event, t: System, p: nat, key: string)
    requires Step(env, s, e) == Some(t) && p < |s.stores| && key in s.stores[p] && NotListed(s.expirers, key)
    requires env.apiProviders <= p || !e.EraseDelete? || NotListed(s.erasers, key)
    ensures p < |t.stores| && key in t.stores[p]
  {
    hide Step;
    if e.Store? || e.InstantPut? {
      var x := Uploads.UploadFrame(env, s, e, t);
    } else if e.ExpireDelete? || e.EraseDelete? {
      var gone := Lifecycle.DeleteFrame(env, s, e, t);
      if e.ExpireDelete? {
        assert s.expirers[e.w].todo[0] in s.expirers[e.w].todo;
      } else {
        assert s.erasers[e.w].todo[0] in s.erasers[e.w].todo;
      }
    } else {
      Lifecycle.StoresFrame(env, s, e, t);
    }
  }

  /** A copy on a provider that the API process does not know outlives the erasure for good:
      its row is expired, so no retention pass lists it again, and repeating the erasure
      only reaches the API's own providers. */
  lemma {:induction false} ForeignCopyIsPermanent(env: Env, s: System, es: seq<Event>, t: System, p: nat, key: string, c: Uuid)
    requires Inv(env, s) && Erased(s, c) && OutOfReach(s, c, key) && Uploads.PullKey(key, c)
    requires Runs(env, s, es, t) && env.apiProviders <= p < |s.stores| && key in s.stores[p]
    ensures p < |t.stores| && key in t.stores[p]
    decreases |es|
  {
    hide Inv, Step, NotListed, Quiet, Uploads.PullKey;
    if es != [] {
      var next := Step(env, s, es[0]).value;
      Lifecycle.StepKeeps(env, s, es[0], next);
      Retention.GlobalsGrow(env, s, es[0], next);
      OutOfReachStep(env, s, es[0], next, c, key);
      CopyStays(env, s, es[0], next, p, key);
      ForeignCopyIsPermanent(env, next, es[1..], t, p, key, c);
    }
  }

  /** An upload of the erased customer that no row names stays for good on every provider:
      no retention pass and no repeated erasure ever lists it. */
  lemma {:induction false} OrphanIsPermanent(env: Env, s: System, es: seq<Event>, t: System, p: nat, key: string, c: Uuid)
    requires Inv(env, s) && Erased(s, c) && Orphan(s, c, key) && Uploads.PullKey(key, c)
    requires Runs(env, s, es, t) && p < |s.stores| && key in s.stores[p]
    ensures p < |t.stores| && key in t.stores[p]
    decreases |es|
  {
    hide Inv, Step, NotListed, Quiet, Uploads.PullKey;
    if es != [] {
      var next := Step(env, s, es[0]).value;
      Lifecycle.StepKeeps(env, s, es[0], next);
      Retention.GlobalsGrow(env, s, es[0], next);
      OutOfReachStep(env, s, es[0], next, c, key);
      CopyStays(env, s, es[0], next, p, key);
      OrphanIsPermanent(env, next, es[1..], t, p, key, c);
    }
  }

  /** One delete by the handler leaves exactly the copies on providers that the API does not
      know or whose delete failed, and the row is marked expired all the same. */
  lemma EraseLeaves(env: Env, s: System, w: nat, faults: seq<Outcome>, m: System, t: System)
    requires Inv(env, s) && Step(env, s, EraseDelete(w, faults)) == Some(m) && Step(env, m, EraseMark(w, true)) == Some(t)
    ensures var (i, key) := s.erasers[w].todo[0];
            && i < |t.rows| && t.rows[i].status == Expired && |t.stores| == |s.stores|
            && forall p :: 0 <= p < |t.stores| ==>
                 (key in t.stores[p] <==> key in s.stores[p] && (env.apiProviders <= p || faults[p] == Failure))
  {
    hide RowsOk, FourDigitYear;
    assert EraseSweep(s, s.erasers[w]);
    assert s.erasers[w].todo[0] in s.erasers[w].todo;
  }
}

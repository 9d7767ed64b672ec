/** When the chain of a zone is one path, and how overlapping attempts fork it. */
module ChainPath {
  import opened Base
  import opened Calendar
  import opened Blob
  import opened ObjectStore
  import opened Pipeline
  import opened ChainForest
  import Lifecycle
  import Worm

  // Events that neither start a task nor mark a row, and lookups that are answered.
  predicate Mild(e: Event) {
    !e.Create? && !e.ExpireMark? && !e.EraseMark? && (e.Link? ==> e.answered)
  }

  lemma LinkBoth(env: Env, s: System, i: nat, j: nat, ri: Bytes, rj: Bytes) returns (t: System)
    requires Inv(env, s) && At(s, i) && At(s, j) && i != j && ri != "" && rj != ""
    requires s.attempts[i].Admitted? && s.attempts[j].Admitted? && s.rows[i].window.zone == s.rows[j].window.zone
    ensures Runs(env, s, [Link(i, ri, true), Link(j, rj, true)], t)
    ensures t.rows == s.rows && t.stores == s.stores && At(t, i) && At(t, j)
    ensures t.attempts[i].Linked? && t.attempts[i].raw == ri && t.attempts[i].parent == LastDone(s.rows, s.rows[i].window.zone)
    ensures t.attempts[j].Linked? && t.attempts[j].raw == rj && t.attempts[j].parent == LastDone(s.rows, s.rows[i].window.zone)
  {
    hide RowsOk, ListsOk, LastDone;
    var m := Step(env, s, Link(i, ri, true)).value;
    t := Step(env, m, Link(j, rj, true)).value;
    TwoSteps(env, s, Link(i, ri, true), m, Link(j, rj, true), t);
  }

  lemma StoreOne(env: Env, s: System, i: nat, faults: seq<Outcome>) returns (t: System)
    requires At(s, i) && s.attempts[i].Linked? && |faults| == |s.stores| && Success in faults
    ensures Step(env, s, Store(i, faults)) == Some(t)
    ensures t.rows == s.rows && |t.stores| == |s.stores| && |t.attempts| == |s.attempts|
    ensures t.attempts[i].Stored? && t.attempts[i].raw == s.attempts[i].raw && t.attempts[i].parent == s.attempts[i].parent
    ensures t.attempts[i].meta.key != ""
    ensures forall k :: 0 <= k < |s.attempts| && k != i ==> t.attempts[k] == s.attempts[k]
  {
    hide PrepareBlob;
    t := Step(env, s, Store(i, faults)).value;
    Lifecycle.KeyNotEmpty(env.codec, s.attempts[i].raw, s.rows[i].window, LogType(s.rows[i].kind));
  }

  lemma FinishBoth(env: Env, s: System, i: nat, j: nat) returns (t: System)
    requires At(s, i) && At(s, j) && i != j && s.attempts[i].Stored? && s.attempts[j].Stored?
    ensures Runs(env, s, [Finish(i, true), Finish(j, true)], t) && |t.rows| == |s.rows|
    ensures t.rows[i].status == Done && t.rows[i].raw == s.attempts[i].raw && t.rows[i].parent == s.attempts[i].parent
    ensures t.rows[i].key == s.attempts[i].meta.key && t.rows[j].key == s.attempts[j].meta.key
    ensures t.rows[j].status == Done && t.rows[j].raw == s.attempts[j].raw && t.rows[j].parent == s.attempts[j].parent
  {
    var m := Step(env, s, Finish(i, true)).value;
    t := Step(env, m, Finish(j, true)).value;
    TwoSteps(env, s, Finish(i, true), m, Finish(j, true), t);
  }

  /** Two admitted attempts of one zone can always finish as siblings: both look up the
      last job before either has finished, and both chain hashes extend the same link. */
  lemma OverlapForks(env: Env, s: System, i: nat, j: nat, ri: Bytes, rj: Bytes, faults: seq<Outcome>)
    returns (es: seq<Event>, t: System)
    requires Inv(env, s) && At(s, i) && At(s, j) && i != j
    requires s.attempts[i].Admitted? && s.attempts[j].Admitted? && s.rows[i].window.zone == s.rows[j].window.zone
    requires ri != "" && rj != "" && |faults| == |s.stores| && Success in faults
    ensures Runs(env, s, es, t) && |t.rows| == |s.rows|
    ensures t.rows[i].status == t.rows[j].status == Done && t.rows[i].raw == ri && t.rows[j].raw == rj
    ensures t.rows[i].parent == t.rows[j].parent == LastDone(s.rows, s.rows[i].window.zone)
    ensures Archived(t, i) && Archived(t, j) && forall k :: 0 <= k < |es| ==> Mild(es[k])
  {
    hide Inv, Step, LastDone, Runs;
    var linked := LinkBoth(env, s, i, j, ri, rj);
    var m := StoreOne(env, linked, i, faults);
    var stored := StoreOne(env, m, j, faults);
    TwoSteps(env, linked, Store(i, faults), m, Store(j, faults), stored);
    t := FinishBoth(env, stored, i, j);
    var links, puts := [Link(i, ri, true), Link(j, rj, true)], [Store(i, faults), Store(j, faults)];
    Join(env, s, links, linked, puts, stored);
    es := links + puts + [Finish(i, true), Finish(j, true)];
    Join(env, s, links + puts, stored, [Finish(i, true), Finish(j, true)], t);
  }

  // ── Attempts that do not overlap ───────────────────────────────────────────────────

  predicate InZone(s: System, i: nat, zone: Uuid) {
    i < |s.rows| && s.rows[i].window.zone == zone
  }

  predicate SettledIn(j: Job, zone: Uuid) {
    Settled(j) && j.window.zone == zone
  }

  // A row of the zone that expires is not its newest done row.
  ghost predicate SparesNewest(s: System, e: Event, zone: Uuid) {
    Written(s, e).Some? && InZone(s, Written(s, e).value, zone) ==> LastDone(s.rows, zone) != Written(s, e)
  }

  // What a run must grant to the zone: an attempt starts when the previous one is over,
  // the clock moves on between them, lookups are answered, and the newest done row does not
  // expire.
  datatype Demand = OneAtATime | ClockMoves | Lookups | NewestKept

  ghost predicate Grants(s: System, e: Event, zone: Uuid, d: Demand) {
    match d
    case OneAtATime => e.Create? && e.window.zone == zone ==>
      forall k :: 0 <= k < |s.rows| && InZone(s, k, zone) ==> k < |s.attempts| && s.attempts[k].Over?
    case ClockMoves => e.Create? && e.window.zone == zone ==>
      forall k :: 0 <= k < |s.rows| && InZone(s, k, zone) ==> s.rows[k].createdAt < s.now
    case Lookups => e.Link? && InZone(s, e.i, zone) ==> e.answered
    case NewestKept => e.ExpireMark? || e.EraseMark? ==> SparesNewest(s, e, zone)
  }

  ghost predicate Orderly(s: System, e: Event, zone: Uuid) {
    Grants(s, e, zone, OneAtATime) && Grants(s, e, zone, ClockMoves) && Grants(s, e, zone, Lookups) && Grants(s, e, zone, NewestKept)
  }

  ghost predicate OrderlyRun(env: Env, s: System, es: seq<Event>, zone: Uuid)
    decreases |es|
  {
    es != [] ==> Orderly(s, es[0], zone) && (Step(env, s, es[0]).Some? ==> OrderlyRun(env, Step(env, s, es[0]).value, es[1..], zone))
  }

  // The last settled row of the zone before row n.
  function PrevSettled(rows: seq<Job>, zone: Uuid, n: nat): (r: Option<nat>)
    requires n <= |rows|
    ensures r.Some? ==> r.value < n && SettledIn(rows[r.value], zone)
  {
    if n == 0 then None else if SettledIn(rows[n - 1], zone) then Some(n - 1) else PrevSettled(rows, zone, n - 1)
  }

  lemma {:induction false} PrevSettledSame(a: seq<Job>, b: seq<Job>, zone: Uuid, n: nat)
    requires n <= |a| && n <= |b|
    requires forall k :: 0 <= k < n ==> SettledIn(a[k], zone) == SettledIn(b[k], zone)
    ensures PrevSettled(a, zone, n) == PrevSettled(b, zone, n)
  {
    if n != 0 {
      PrevSettledSame(a, b, zone, n - 1);
    }
  }

  lemma {:induction false} PrevSettledSkips(rows: seq<Job>, zone: Uuid, n: nat, m: nat)
    requires n <= m <= |rows|
    requires forall k :: n <= k < m ==> !SettledIn(rows[k], zone)
    ensures PrevSettled(rows, zone, m) == PrevSettled(rows, zone, n)
  {
    if n < m {
      PrevSettledSkips(rows, zone, n, m - 1);
    }
  }

  predicate NewestIsDone(rows: seq<Job>, zone: Uuid) {
    var r := PrevSettled(rows, zone, |rows|);
    r.Some? ==> rows[r.value].status == Done
  }

  // The newest done row, if any, is at most as far back as the newest settled one.
  lemma {:induction false} LastDoneIn(rows: seq<Job>, zone: Uuid, n: nat)
    requires n <= |rows| && forall k :: n <= k < |rows| ==> !SettledIn(rows[k], zone)
    ensures LastDone(rows, zone) == LastDone(rows[..n], zone)
    decreases |rows|
  {
    if n < |rows| {
      var m := |rows| - 1;
      LastDoneIn(rows[..m], zone, n);
      assert rows[..m][..n] == rows[..n];
    } else {
      assert rows[..n] == rows;
    }
  }

  lemma {:induction false} NoneSettled(rows: seq<Job>, zone: Uuid, n: nat)
    requires n <= |rows| && PrevSettled(rows, zone, n).None?
    ensures forall k :: 0 <= k < n ==> !SettledIn(rows[k], zone)
  {
    if n != 0 {
      NoneSettled(rows, zone, n - 1);
    }
  }

  lemma {:induction false} NoneAfter(rows: seq<Job>, zone: Uuid, n: nat)
    requires n <= |rows| && PrevSettled(rows, zone, n).Some?
    ensures forall k :: PrevSettled(rows, zone, n).value < k < n ==> !SettledIn(rows[k], zone)
  {
    if n != 0 && !SettledIn(rows[n - 1], zone) {
      NoneAfter(rows, zone, n - 1);
    }
  }

  /** With creation times that grow along the zone, and the newest settled row still done,
      the newest done row is the last settled one, whatever has expired before it. */
  lemma LastIsPrev(rows: seq<Job>, zone: Uuid)
    requires forall i, j :: 0 <= i < j < |rows| && rows[i].window.zone == zone && rows[j].window.zone == zone ==>
               rows[i].createdAt < rows[j].createdAt
    requires NewestIsDone(rows, zone)
    ensures LastDone(rows, zone) == PrevSettled(rows, zone, |rows|)
  {
    var r := PrevSettled(rows, zone, |rows|);
    if r.None? {
      NoneSettled(rows, zone, |rows|);
    } else {
      var n := r.value + 1;
      NoneAfter(rows, zone, |rows|);
      LastDoneIn(rows, zone, n);
      assert rows[..n][..n - 1] == rows[..n - 1];
      assert DoneIn(rows[..n][n - 1], zone);
    }
  }

  predicate Carries(a: Stage) {
    a.Linked? || a.Stored?
  }

  // Rows of the zone are created in order, each after the attempts before it are over.
  ghost predicate InOrder(s: System, zone: Uuid) {
    && |s.attempts| == |s.rows|
    && forall i, j :: 0 <= i < j < |s.rows| && InZone(s, i, zone) && InZone(s, j, zone) ==>
         s.rows[i].createdAt < s.rows[j].createdAt && s.attempts[i].Over?
  }

  predicate ParentIsPrev(s: System, zone: Uuid, i: nat)
    requires i < |s.rows| == |s.attempts|
  {
    && (Archived(s, i) ==> s.rows[i].parent == PrevSettled(s.rows, zone, i))
    && (Carries(s.attempts[i]) ==> s.attempts[i].parent == PrevSettled(s.rows, zone, i))
  }

  ghost predicate Path(s: System, zone: Uuid) {
    && InOrder(s, zone) && NewestIsDone(s.rows, zone)
    && forall i :: 0 <= i < |s.rows| && InZone(s, i, zone) ==> ParentIsPrev(s, zone, i)
  }

  // A running attempt owns the last row of its zone.
  lemma RunningIsLast(s: System, zone: Uuid, i: nat)
    requires InOrder(s, zone) && InZone(s, i, zone) && !s.attempts[i].Over?
    ensures forall k :: i < k < |s.rows| ==> !InZone(s, k, zone)
  {
  }

  // The parent that a moved attempt carries.
  lemma MovedParent(env: Env, s: System, e: Event, t: System, zone: Uuid)
    requires Inv(env, s) && Path(s, zone) && Orderly(s, e, zone) && Step(env, s, e) == Some(t)
    requires Moved(e).Some? && InZone(s, e.i, zone)
    ensures e.i < |t.attempts| && (Carries(t.attempts[e.i]) ==> t.attempts[e.i].parent == PrevSettled(s.rows, zone, e.i))
  {
    hide PrepareBlob, FourDigitYear, PutAll, Usage, MonthBegin, ListsOk, RowShape, LastDone, PrevSettled;
    if e.Link? {
      LastIsPrev(s.rows, zone);
      assert StageShape(env, s.rows[e.i], s.attempts[e.i]);
      PrevSettledSkips(s.rows, zone, e.i, |s.rows|);
    }
  }

  // The parent that a closing write puts into the row.
  lemma ClosedParent(env: Env, s: System, e: Event, t: System, zone: Uuid)
    requires Inv(env, s) && Path(s, zone) && Step(env, s, e) == Some(t)
    requires Lifecycle.Closes(e) && InZone(s, e.i, zone)
    ensures e.i < |t.rows| && (Archived(t, e.i) ==> t.rows[e.i].parent == PrevSettled(s.rows, zone, e.i))
    ensures t.rows[e.i].status != Expired
  {
    hide PrepareBlob, FourDigitYear, ListsOk, PrevSettled;
    assert RowShape(env, s.rows[e.i]) && StageShape(env, s.rows[e.i], s.attempts[e.i]);
  }

  // What a step leaves of a row whose attempt it does not move.
  predicate Rests(a: Job, b: Job) {
    b == a.(status := b.status, verified := b.verified) && Settled(a) == Settled(b)
  }

  predicate Marks(s: System, e: Event, k: nat) {
    (e.ExpireMark? || e.EraseMark?) && Written(s, e) == Some(k)
  }

  lemma VerifyStatus(env: Env, s: System, e: Event, t: System)
    requires e.Verify? && Step(env, s, e) == Some(t)
    ensures e.i < |s.rows| == |t.rows| && t.rows[e.i].status == s.rows[e.i].status
  {
    hide GetFirst;
  }

  lemma RowRests(env: Env, s: System, e: Event, t: System, k: nat)
    requires Inv(env, s) && Step(env, s, e) == Some(t) && RowsFollow(s.rows, t.rows)
    requires k < |s.rows| && Moved(e) != Some(k)
    ensures k < |t.rows| && Rests(s.rows[k], t.rows[k])
    ensures t.rows[k].status == s.rows[k].status || Marks(s, e, k)
  {
    hide PrepareBlob, FourDigitYear, RowShape, StageShape, ListsOk, Step;
    Lifecycle.Frame(env, s, e, t);
    assert Follows(s.rows[k], t.rows[k]);
    if e.Verify? {
      VerifyStatus(env, s, e, t);
    }
  }

  // The row of the attempt that a step moves.
  ghost predicate MovesOn(s: System, i: nat, t: System, zone: Uuid) {
    && i < |s.rows| == |t.rows| == |t.attempts| == |s.attempts|
    && !s.attempts[i].Over? && s.rows[i].status == Pending
    && t.rows[i].window == s.rows[i].window && t.rows[i].createdAt == s.rows[i].createdAt
    && (InZone(s, i, zone) ==>
          && t.rows[i].status != Expired
          && (Archived(t, i) ==> t.rows[i].parent == PrevSettled(s.rows, zone, i))
          && (Carries(t.attempts[i]) ==> t.attempts[i].parent == PrevSettled(s.rows, zone, i)))
  }

  lemma PendingWhileRunning(env: Env, s: System, i: nat)
    requires RowsOk(env, s) && i < |s.rows| && !s.attempts[i].Over?
    ensures s.rows[i].status == Pending
  {
    hide PrepareBlob, FourDigitYear, RowShape;
  }

  lemma MovedRow(env: Env, s: System, e: Event, t: System, zone: Uuid)
    requires Inv(env, s) && Path(s, zone) && Orderly(s, e, zone) && Step(env, s, e) == Some(t)
    requires Moved(e).Some? && RowsFollow(s.rows, t.rows)
    ensures MovesOn(s, e.i, t, zone)
  {
    hide PrepareBlob, FourDigitYear, Step, PrevSettled, ListsOk, RowShape, StageShape;
    Lifecycle.Frame(env, s, e, t);
    assert Follows(s.rows[e.i], t.rows[e.i]);
    PendingWhileRunning(env, s, e.i);
    if InZone(s, e.i, zone) {
      MovedParent(env, s, e, t, zone);
      if Lifecycle.Closes(e) {
        ClosedParent(env, s, e, t, zone);
      }
    }
  }

  // What a step can do to the rows of the zone.
  ghost predicate ZoneFramed(s: System, e: Event, t: System, zone: Uuid) {
    && Lifecycle.Framed(s, e, t)
    && (forall k :: 0 <= k < |s.rows| && Moved(e) != Some(k) ==>
          Rests(s.rows[k], t.rows[k]) && (t.rows[k].status == s.rows[k].status || Marks(s, e, k)))
    && (Moved(e).Some? ==> MovesOn(s, e.i, t, zone))
    && (e.Create? ==> t.rows[|s.rows|] == BlankJob(e.id, e.kind, e.window, s.now) && t.attempts[|s.rows|] == Created)
  }

  lemma ZoneFrame(env: Env, s: System, e: Event, t: System, zone: Uuid)
    requires Inv(env, s) && Path(s, zone) && Orderly(s, e, zone) && Step(env, s, e) == Some(t)
    ensures Inv(env, t) && ZoneFramed(s, e, t, zone)
  {
    hide PrepareBlob, FourDigitYear, Inv, Step, PrevSettled, Follows, Path, Orderly, RowsFollow, Rests, MovesOn, Marks;
    Lifecycle.StepKeeps(env, s, e, t);
    Lifecycle.Frame(env, s, e, t);
    forall k | 0 <= k < |s.rows| && Moved(e) != Some(k)
      ensures Rests(s.rows[k], t.rows[k]) && (t.rows[k].status == s.rows[k].status || Marks(s, e, k))
    {
      RowRests(env, s, e, t, k);
    }
    if Moved(e).Some? {
      MovedRow(env, s, e, t, zone);
    }
  }

  // Rows keep their window and creation time, and attempts that are over stay over.
  ghost predicate SameShape(s: System, e: Event, t: System) {
    && |s.attempts| == |s.rows| && |t.rows| == |t.attempts| == |s.rows| + (if e.Create? then 1 else 0)
    && (forall k :: 0 <= k < |s.rows| ==>
          && t.rows[k].window == s.rows[k].window && t.rows[k].createdAt == s.rows[k].createdAt
          && (s.attempts[k].Over? ==> t.attempts[k].Over?))
    && (e.Create? ==> t.rows[|s.rows|].window == e.window && t.rows[|s.rows|].createdAt == s.now && !Settled(t.rows[|s.rows|]))
  }

  lemma ShapeStays(s: System, e: Event, t: System, zone: Uuid)
    requires ZoneFramed(s, e, t, zone)
    ensures SameShape(s, e, t)
  {
    hide PrevSettled;
  }

  lemma OrderStep(s: System, e: Event, t: System, zone: Uuid)
    requires InOrder(s, zone) && Orderly(s, e, zone) && SameShape(s, e, t)
    ensures InOrder(t, zone)
  {
    hide LastDone, Settled;
  }

  // The settled rows of the zone before row i stay what they are.
  lemma PrevStays(s: System, e: Event, t: System, zone: Uuid, i: nat)
    requires Path(s, zone) && ZoneFramed(s, e, t, zone) && i <= |s.rows|
    requires Moved(e).Some? && InZone(s, e.i, zone) ==> i <= e.i || !Settled(t.rows[e.i])
    ensures PrevSettled(t.rows, zone, i) == PrevSettled(s.rows, zone, i)
  {
    hide PrevSettled, ParentIsPrev, NewestIsDone, LastDone;
    PrevSettledSame(t.rows, s.rows, zone, i);
  }

  lemma SettledIsPrev(rows: seq<Job>, zone: Uuid, i: nat)
    requires i < |rows| && SettledIn(rows[i], zone)
    ensures PrevSettled(rows, zone, i + 1) == Some(i)
  {
  }

  lemma FramedLengths(s: System, e: Event, t: System)
    requires Lifecycle.Framed(s, e, t)
    ensures |s.attempts| == |s.rows| && |t.rows| == |t.attempts| == |s.rows| + if e.Create? then 1 else 0
  {
  }

  lemma RestOrMove(s: System, e: Event, t: System, zone: Uuid, i: nat)
    requires ZoneFramed(s, e, t, zone) && i < |s.rows|
    ensures i < |t.rows| == |t.attempts| && |s.rows| == |s.attempts| && t.rows[i].window == s.rows[i].window
    ensures Moved(e) == Some(i) ==> MovesOn(s, i, t, zone)
    ensures Moved(e) != Some(i) ==> Rests(s.rows[i], t.rows[i]) && t.attempts[i] == s.attempts[i]
    ensures Moved(e) != Some(i) ==> t.rows[i].status == s.rows[i].status || Marks(s, e, i)
  {
  }

  // The attempt of the zone's last row closes.
  lemma NewestCloses(s: System, e: Event, t: System, zone: Uuid)
    requires InOrder(s, zone) && Moved(e).Some? && MovesOn(s, e.i, t, zone) && InZone(s, e.i, zone) && Settled(t.rows[e.i])
    requires forall k :: e.i < k < |s.rows| ==> t.rows[k].window == s.rows[k].window
    ensures NewestIsDone(t.rows, zone)
  {
    hide PrevSettled;
    RunningIsLast(s, zone, e.i);
    PrevSettledSkips(t.rows, zone, e.i + 1, |t.rows|);
    SettledIsPrev(t.rows, zone, e.i);
  }

  // An orderly mark spares the newest settled row.
  lemma NewestUnmarked(s: System, e: Event, zone: Uuid, r: nat)
    requires InOrder(s, zone) && NewestIsDone(s.rows, zone) && Orderly(s, e, zone)
    requires PrevSettled(s.rows, zone, |s.rows|) == Some(r)
    ensures !Marks(s, e, r)
  {
    hide PrevSettled, LastDone;
    LastIsPrev(s.rows, zone);
  }

  lemma NewestStep(s: System, e: Event, t: System, zone: Uuid)
    requires Path(s, zone) && Orderly(s, e, zone) && ZoneFramed(s, e, t, zone) && SameShape(s, e, t)
    ensures NewestIsDone(t.rows, zone)
  {
    hide PrevSettled, ParentIsPrev, LastDone, ZoneFramed, Rests, Marks, Orderly;
    var n := |s.rows|;
    if Moved(e).Some? && e.i < n {
      RestOrMove(s, e, t, zone, e.i);
    }
    if Moved(e).Some? && InZone(s, e.i, zone) && Settled(t.rows[e.i]) {
      NewestCloses(s, e, t, zone);
    } else {
      PrevStays(s, e, t, zone, n);
      PrevSettledSkips(t.rows, zone, n, |t.rows|);
      var r := PrevSettled(s.rows, zone, n);
      if r.Some? {
        RestOrMove(s, e, t, zone, r.value);
        NewestUnmarked(s, e, zone, r.value);
      }
    }
  }

  lemma ParentStep(s: System, e: Event, t: System, zone: Uuid, i: nat)
    requires Path(s, zone) && ZoneFramed(s, e, t, zone) && InZone(t, i, zone)
    ensures |t.rows| == |t.attempts| && ParentIsPrev(t, zone, i)
  {
    hide PrevSettled, NewestIsDone, LastDone, InOrder, Lifecycle.Framed;
    FramedLengths(s, e, t);
    if i < |s.rows| {
      RestOrMove(s, e, t, zone, i);
      assert InZone(s, i, zone) && ParentIsPrev(s, zone, i);
      if Moved(e).Some? && InZone(s, e.i, zone) {
        RunningIsLast(s, zone, e.i);
      }
      PrevStays(s, e, t, zone, i);
    }
  }

  lemma PathStep(env: Env, s: System, e: Event, t: System, zone: Uuid)
    requires Inv(env, s) && Path(s, zone) && Orderly(s, e, zone) && Step(env, s, e) == Some(t)
    ensures Path(t, zone)
  {
    hide Inv, Step, ParentIsPrev, Orderly, NewestIsDone, ZoneFramed;
    ZoneFrame(env, s, e, t, zone);
    ShapeStays(s, e, t, zone);
    OrderStep(s, e, t, zone);
    NewestStep(s, e, t, zone);
    forall i | 0 <= i < |t.rows| && InZone(t, i, zone) ensures ParentIsPrev(t, zone, i) {
      ParentStep(s, e, t, zone, i);
    }
  }

  lemma {:induction false} PathKept(env: Env, s: System, es: seq<Event>, t: System, zone: Uuid)
    requires Inv(env, s) && Path(s, zone) && OrderlyRun(env, s, es, zone) && Runs(env, s, es, t)
    ensures Inv(env, t) && Path(t, zone)
    decreases |es|
  {
    hide Inv, Path, Step, Orderly;
    if es != [] {
      var next := Step(env, s, es[0]).value;
      Lifecycle.StepKeeps(env, s, es[0], next);
      PathStep(env, s, es[0], next, zone);
      PathKept(env, next, es[1..], t, zone);
    }
  }

  // The archived windows of the zone among the first n rows, back to the last empty window.
  function SinceEmpty(rows: seq<Job>, zone: Uuid, n: nat): seq<Worm.Record>
    requires n <= |rows|
  {
    if n == 0 then []
    else if !SettledIn(rows[n - 1], zone) then SinceEmpty(rows, zone, n - 1)
    else if rows[n - 1].key == "" then []
    else SinceEmpty(rows, zone, n - 1) + [Worm.Record(rows[n - 1].raw, rows[n - 1].id)]
  }

  lemma {:induction false} SinceEmptyFromPrev(rows: seq<Job>, zone: Uuid, n: nat)
    requires n <= |rows|
    ensures SinceEmpty(rows, zone, n) ==
            match PrevSettled(rows, zone, n)
            case None => []
            case Some(k) => SinceEmpty(rows, zone, k + 1)
  {
    if n != 0 && !SettledIn(rows[n - 1], zone) {
      SinceEmptyFromPrev(rows, zone, n - 1);
    }
  }

  lemma {:induction false} AncestryIsHistory(env: Env, s: System, zone: Uuid, i: nat)
    requires Inv(env, s) && Forest(env, s) && Path(s, zone) && Archived(s, i) && InZone(s, i, zone)
    ensures Ancestry(s, i) == SinceEmpty(s.rows, zone, i + 1)
    decreases s.rows[i].doneAt
  {
    hide Inv, StageLinked;
    assert RowLinked(env, s.rows, s.rows[i], s.doneCount);
    SinceEmptyFromPrev(s.rows, zone, i);
    var p := Predecessor(s, i);
    if p.Some? {
      AncestryIsHistory(env, s, zone, p.value);
    }
  }

  /** When the attempts of a zone never overlap, its lookups are answered, its clock moves
      on and its newest done row does not expire, the links behind any archived row visit
      every archived window of the zone back to the last empty window, in order and without
      exception, those that have expired included. */
  lemma OrderlyZoneIsOnePath(env: Env, s: System, es: seq<Event>, t: System, zone: Uuid, i: nat)
    requires Initial(s) && Runs(env, s, es, t) && OrderlyRun(env, s, es, zone)
    requires Archived(t, i) && InZone(t, i, zone)
    ensures Ancestry(t, i) == SinceEmpty(t.rows, zone, i + 1)
  {
    hide Inv;
    Lifecycle.InitialInv(env, s);
    ForestKept(env, s, es, t);
    PathKept(env, s, es, t, zone);
    AncestryIsHistory(env, t, zone, i);
  }
}
